/** The earlier `GethCustomHttp` (`connnectors/http/custom.py`): the same
    binary search, but over naive local `datetime`s. A datetime is its count
    of microseconds; `datetime.fromtimestamp` is a parameter, assumed
    strictly increasing where a property needs it (a fixed UTC offset is
    such a map; a clock change is not). */
module LegacyCustom {
  import opened Custom

  const MicrosPerSecond: int := 1000000

  /** `datetime.fromtimestamp` as a strictly increasing map from seconds to
      the local clock's microseconds. */
  ghost predicate Increasing(fromTimestamp: int -> int) {
    forall x, y :: x < y ==> fromTimestamp(x) < fromTimestamp(y)
  }

  /** `datetime.fromtimestamp` at a fixed UTC offset. */
  function FixedOffset(offset: int): (f: int -> int)
    ensures Increasing(f)
  {
    x => x * 1000000 + offset
  }

  /** The datetime of each height. */
  function Dates(ts: int -> int, fromTimestamp: int -> int): int -> int {
    h => fromTimestamp(ts(h))
  }

  /** The older `_binary_search(start, end, target)`: the same steps, with
      the timestamp at the middle turned into a datetime before each
      comparison. */
  function LegacyBinarySearch(ts: int -> int, fromTimestamp: int -> int, start: int, end: int, target: int): (h: int)
    ensures start <= end ==> start <= h <= end
    decreases end - start
  {
    var middle := (start + end) / 2;
    var dt := fromTimestamp(ts(middle));
    if end - start <= 1 then (if dt >= target then start else end)
    else if dt == target then middle
    else if dt > target then LegacyBinarySearch(ts, fromTimestamp, start, middle, target)
    else LegacyBinarySearch(ts, fromTimestamp, middle, end, target)
  }

  /** The older search is the newer one over the heights' datetimes. */
  lemma {:induction false} LegacySearchIsSearch(ts: int -> int, fromTimestamp: int -> int, start: int, end: int, target: int)
    ensures LegacyBinarySearch(ts, fromTimestamp, start, end, target) == BinarySearch(Dates(ts, fromTimestamp), start, end, target)
    decreases end - start
  {
    var middle := (start + end) / 2;
    assert Dates(ts, fromTimestamp)(middle) == fromTimestamp(ts(middle));
    if end - start > 1 {
      LegacySearchIsSearch(ts, fromTimestamp, start, middle, target);
      LegacySearchIsSearch(ts, fromTimestamp, middle, end, target);
    }
  }

  /** Increasing timestamps give increasing datetimes. */
  lemma DatesIncrease(ts: int -> int, fromTimestamp: int -> int, start: int, end: int)
    requires Increasing(fromTimestamp) && StrictlyIncreasing(ts, start, end)
    ensures StrictlyIncreasing(Dates(ts, fromTimestamp), start, end)
  {
    forall a, b | start <= a < b <= end
      ensures Dates(ts, fromTimestamp)(a) < Dates(ts, fromTimestamp)(b)
    {
      assert ts(a) < ts(b);
    }
  }

  /** With datetimes increasing over the range and bracketing the target,
      the older search finds the first height whose datetime has reached
      it. */
  lemma LegacySearchFindsFirst(ts: int -> int, fromTimestamp: int -> int, start: int, end: int, target: int)
    requires start <= end && StrictlyIncreasing(Dates(ts, fromTimestamp), start, end)
    requires fromTimestamp(ts(start)) < target <= fromTimestamp(ts(end))
    ensures var h := LegacyBinarySearch(ts, fromTimestamp, start, end, target);
      start < h <= end && fromTimestamp(ts(h)) >= target && fromTimestamp(ts(h - 1)) < target
  {
    var dates := Dates(ts, fromTimestamp);
    assert dates(start) == fromTimestamp(ts(start)) && dates(end) == fromTimestamp(ts(end));
    BinarySearchFindsFirst(dates, start, end, target);
    LegacySearchIsSearch(ts, fromTimestamp, start, end, target);
    var h := BinarySearch(dates, start, end, target);
    var before := h - 1;
    assert dates(h) == fromTimestamp(ts(h)) && dates(before) == fromTimestamp(ts(before));
  }

  /** `int(x)` of a float: truncation toward zero. */
  function TruncDiv(a: int, d: int): (q: int)
    requires d > 0
    ensures a >= 0 ==> 0 <= q && q * d <= a < q * d + d
    ensures a < 0 ==> q <= 0 && q * d - d < a <= q * d
  {
    if a >= 0 then a / d else -((-a) / d)
  }

  /** The window of `get_height_after_dt`: the timedelta's whole seconds,
      truncated toward zero, then the newer window's floor divisions. */
  function LegacyWindow(height: int, now: int, target: int): (w: (int, int))
    ensures target <= now ==> w.1 <= height + 5
    ensures now - MicrosPerSecond < target < now + MicrosPerSecond ==> w == (height - 5, height + 5)
  {
    var seconds := TruncDiv(now - target, MicrosPerSecond);
    (height - FloorDiv(seconds, 12) - 5, height - FloorDiv(seconds, 24) + 5)
  }

  /** For whole-second datetimes the older window is the newer one. */
  lemma LegacyWindowAgrees(height: int, now: int, timestamp: int)
    ensures LegacyWindow(height, now * MicrosPerSecond, timestamp * MicrosPerSecond) == Window(height, now, timestamp)
  {
    var td := now - timestamp;
    assert now * MicrosPerSecond - timestamp * MicrosPerSecond == td * MicrosPerSecond;
    var q := TruncDiv(td * MicrosPerSecond, MicrosPerSecond);
    if td >= 0 {
      assert q * MicrosPerSecond <= td * MicrosPerSecond < (q + 1) * MicrosPerSecond;
    } else {
      assert (q - 1) * MicrosPerSecond < td * MicrosPerSecond <= q * MicrosPerSecond;
    }
    assert q == td;
  }

  /** For a target in the past the window is ordered and spans at least ten
      heights. */
  lemma LegacyWindowOrdered(height: int, now: int, target: int)
    requires target <= now
    ensures LegacyWindow(height, now, target).0 <= LegacyWindow(height, now, target).1 - 10
  {
    var seconds := TruncDiv(now - target, MicrosPerSecond);
    WindowOrdered(height, seconds, 0);
  }

  /** A target less than a second ahead of `now` truncates to no difference
      at all, where floor division would have given -1 second. */
  lemma SubSecondFutureIsNow(height: int, now: int, ahead: int)
    requires 0 < ahead < MicrosPerSecond
    ensures LegacyWindow(height, now, now + ahead) == (height - 5, height + 5)
  {
  }

  /** `get_height_after_dt(target)`, given the chain head height and the
      clock reading. */
  function LegacyHeightAfterDt(ts: int -> int, fromTimestamp: int -> int, height: int, now: int, target: int): (h: int)
    ensures var w := LegacyWindow(height, now, target);
      w.0 <= w.1 ==> w.0 <= h <= w.1
  {
    var (lower, upper) := LegacyWindow(height, now, target);
    LegacyBinarySearch(ts, fromTimestamp, lower, upper, target)
  }

  /** When the window brackets the target and the chain's timestamps
      increase over it, the height found is the first block at or after the
      target. */
  lemma LegacyHeightAfterDtFindsFirst(ts: int -> int, fromTimestamp: int -> int, height: int, now: int, target: int)
    requires var (lower, upper) := LegacyWindow(height, now, target);
      lower <= upper && StrictlyIncreasing(Dates(ts, fromTimestamp), lower, upper) &&
      fromTimestamp(ts(lower)) < target <= fromTimestamp(ts(upper))
    ensures var h := LegacyHeightAfterDt(ts, fromTimestamp, height, now, target);
      fromTimestamp(ts(h)) >= target && fromTimestamp(ts(h - 1)) < target
  {
    var (lower, upper) := LegacyWindow(height, now, target);
    LegacySearchFindsFirst(ts, fromTimestamp, lower, upper, target);
  }
}
