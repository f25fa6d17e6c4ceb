/** A peer's recent heartbeats: a moving window over the intervals between them. Instants and
    durations are in nanoseconds. */
module HeartbeatWindow {
  import opened Types

  const U32_RANGE: nat := 0x1_0000_0000

  function Interval(earlier: int, later: int): nat {
    if later >= earlier then later - earlier else 0
  }

  /** The intervals between successive instants, the first being that of creation. */
  function Intervals(instants: seq<int>): (r: seq<nat>)
    ensures |r| == if instants == [] then 0 else |instants| - 1
  {
    if |instants| <= 1 then []
    else Intervals(instants[..|instants| - 1]) + [Interval(instants[|instants| - 2], instants[|instants| - 1])]
  }

  /** On a clock that does not run backwards the intervals are the times elapsed between successive
      instants; an instant before its predecessor counts as no time. */
  lemma {:induction false} IntervalsAreElapsed(instants: seq<int>)
    ensures forall i :: 0 <= i < |Intervals(instants)| ==>
                          Intervals(instants)[i] == if instants[i + 1] > instants[i]
                          then instants[i + 1] - instants[i] else 0
    decreases |instants|
  {
    if |instants| > 1 {
      IntervalsAreElapsed(instants[..|instants| - 1]);
    }
  }

  /** A new interval goes in front; a full deque gives up its oldest, at the back. */
  function Pushed(durations: seq<nat>, window: nat, newest: nat): seq<nat> {
    [newest] + (if |durations| == window && durations != [] then durations[..|durations| - 1] else durations)
  }

  function WindowAfter(window: nat, intervals: seq<nat>): seq<nat> {
    if intervals == [] then []
    else Pushed(WindowAfter(window, intervals[..|intervals| - 1]), window, intervals[|intervals| - 1])
  }

  lemma OneMoreInterval(instants: seq<int>, now: int)
    requires instants != []
    ensures Intervals(instants + [now]) == Intervals(instants) + [Interval(instants[|instants| - 1], now)]
  {
    assert (instants + [now])[..|instants|] == instants;
  }

  lemma OneMorePushed(window: nat, intervals: seq<nat>, newest: nat)
    ensures WindowAfter(window, intervals + [newest]) == Pushed(WindowAfter(window, intervals), window, newest)
  {
    assert (intervals + [newest])[..|intervals|] == intervals;
  }

  function Reversed(s: seq<nat>): (r: seq<nat>)
    ensures |r| == |s| && forall i :: 0 <= i < |s| ==> r[i] == s[|s| - 1 - i]
  {
    seq(|s|, i requires 0 <= i < |s| => s[|s| - 1 - i])
  }

  function Last(s: seq<nat>, n: nat): seq<nat> {
    if n < |s| then s[|s| - n..] else s
  }

  lemma LatestPushed(window: nat, intervals: seq<nat>, newest: nat)
    requires window >= 1
    ensures Pushed(Reversed(Last(intervals, window)), window, newest) == Reversed(Last(intervals + [newest], window))
  {
    var before := Last(intervals, window);
    var after := Last(intervals + [newest], window);
    var kept := if |before| == window then before[1..] else before;
    assert after == kept + [newest];
    var pushed := Pushed(Reversed(before), window, newest);
    assert |pushed| == |after|;
    forall i | 0 <= i < |pushed|
      ensures pushed[i] == Reversed(after)[i]
    {
      if i > 0 {
        assert pushed[i] == Reversed(before)[i - 1];
      }
    }
  }

  /** A window of at least one holds the latest intervals, newest first. */
  lemma {:induction false} WindowIsLatest(window: nat, intervals: seq<nat>)
    requires window >= 1
    ensures WindowAfter(window, intervals) == Reversed(Last(intervals, window))
    decreases |intervals|
  {
    if intervals != [] {
      var n := |intervals| - 1;
      WindowIsLatest(window, intervals[..n]);
      LatestPushed(window, intervals[..n], intervals[n]);
      assert intervals[..n] + [intervals[n]] == intervals;
    }
  }

  /** A window of zero keeps everything. */
  lemma {:induction false} ZeroWindowKeepsAll(intervals: seq<nat>)
    ensures WindowAfter(0, intervals) == Reversed(intervals)
    decreases |intervals|
  {
    if intervals != [] {
      var n := |intervals| - 1;
      ZeroWindowKeepsAll(intervals[..n]);
      assert Pushed(Reversed(intervals[..n]), 0, intervals[n]) == Reversed(intervals);
    }
  }

  /** The window bounds the deque over every history exactly when it is not zero. */
  lemma WindowBoundsIff(window: nat)
    ensures (forall intervals :: |WindowAfter(window, intervals)| <= window) <==> window >= 1
  {
    if window >= 1 {
      forall intervals
        ensures |WindowAfter(window, intervals)| <= window
      {
        WindowIsLatest(window, intervals);
      }
    } else {
      ZeroWindowKeepsAll([0]);
      assert |WindowAfter(window, [0])| == 1;
    }
  }

  // ---------------------------------------------------------------- the average

  function Sum(s: seq<nat>): nat {
    if s == [] then 0 else Sum(s[..|s| - 1]) + s[|s| - 1]
  }

  /** `None` where the program panics: a deque whose length does not fit 32 bits. */
  function Average(durations: seq<nat>): (avg: Option<nat>) {
    if durations == [] then Some(0)
    else if |durations| >= U32_RANGE then None
    else Some(Sum(durations) / |durations|)
  }

  lemma {:induction false} SumBounds(s: seq<nat>, low: nat, high: nat)
    requires forall x :: x in s ==> low <= x <= high
    ensures low * |s| <= Sum(s) <= high * |s|
  {
    if s != [] {
      var front, last := s[..|s| - 1], s[|s| - 1];
      assert forall x :: x in front ==> x in s;
      SumBounds(front, low, high);
      assert last in s;
      assert low * |s| == low * |front| + low;
      assert high * |s| == high * |front| + high;
    }
  }

  lemma {:induction false} SumReversed(s: seq<nat>)
    ensures Sum(Reversed(s)) == Sum(s)
    decreases |s|
  {
    if s != [] {
      var n := |s| - 1;
      SumReversed(s[..n]);
      assert Reversed(s) == [s[n]] + Reversed(s[..n]);
      SumInFront(s[n], Reversed(s[..n]));
    }
  }

  lemma {:induction false} SumInFront(x: nat, s: seq<nat>)
    ensures Sum([x] + s) == x + Sum(s)
    decreases |s|
  {
    if s == [] {
      assert [x] + s == [x] && Sum([x]) == Sum([x][..0]) + x;
    } else {
      SumInFront(x, s[..|s| - 1]);
      assert ([x] + s)[..|s|] == [x] + s[..|s| - 1];
    }
  }

  lemma FloorOfMean(total: nat, count: nat, low: nat, high: nat)
    requires count > 0 && low * count <= total <= high * count
    ensures total / count * count <= total < (total / count + 1) * count
    ensures low <= total / count <= high
  {
    var q := total / count;
    assert total == q * count + total % count;
    Ordered(low, q + 1, count);
    Ordered(q, high + 1, count);
  }

  /** Cancelling a common factor. */
  lemma Ordered(a: nat, b: nat, count: nat)
    ensures a * count < b * count ==> a < b
  {
    if a >= b {
      assert a * count == b * count + (a - b) * count;
    }
  }

  /** After any heartbeats the average is the floored mean of the latest intervals, and lies
      between any bounds on them. */
  lemma AverageIsMeanOfLatest(window: nat, intervals: seq<nat>, low: nat, high: nat)
    requires 1 <= window <= 0xFFFF_FFFF
    requires forall x :: x in Last(intervals, window) ==> low <= x <= high
    ensures
      var latest, avg := Last(intervals, window), Average(WindowAfter(window, intervals));
      if intervals == [] then avg == Some(0)
      else avg.Some? && low <= avg.value <= high && avg.value * |latest| <= Sum(latest) < (avg.value + 1) * |latest|
  {
    var latest := Last(intervals, window);
    WindowIsLatest(window, intervals);
    SumReversed(latest);
    if intervals != [] {
      SumBounds(latest, low, high);
      FloorOfMean(Sum(latest), |latest|, low, high);
    }
  }

  /** Taking the average is safe after every history exactly when the window is not zero. */
  lemma AverageAlwaysDefinedIff(window: nat)
    requires window <= 0xFFFF_FFFF
    ensures (forall intervals :: Average(WindowAfter(window, intervals)).Some?) <==> window >= 1
  {
    if window >= 1 {
      forall intervals
        ensures Average(WindowAfter(window, intervals)).Some?
      {
        WindowIsLatest(window, intervals);
      }
    } else {
      var many: seq<nat> := seq(U32_RANGE, _ => 0);
      ZeroWindowKeepsAll(many);
      assert Average(WindowAfter(window, many)).None?;
    }
  }

  // ---------------------------------------------------------------- the record of one peer

  class HeartBeatData<T> {
    var teePayload: T
    var lastHeartbeat: int
    const sizeMovingWindow: nat
    var durations: seq<nat>
    /** The instant of creation and of every update since. */
    ghost var instants: seq<int>

    ghost predicate Valid()
      reads this
    {
      && instants != [] && lastHeartbeat == instants[|instants| - 1]
      && durations == WindowAfter(sizeMovingWindow, Intervals(instants))
    }

    constructor (window: nat, payload: T, now: int)
      ensures Valid() && sizeMovingWindow == window && teePayload == payload && instants == [now]
    {
      teePayload, lastHeartbeat, sizeMovingWindow, durations, instants := payload, now, window, [], [now];
    }

    method AverageTimeBetweenHeartbeats() returns (avg: Option<nat>)
      requires Valid()
      ensures avg == Average(WindowAfter(sizeMovingWindow, Intervals(instants)))
    {
      if durations == [] {
        return Some(0);
      }
      if |durations| >= U32_RANGE {
        return None;
      }
      var total, i := 0, 0;
      while i < |durations|
        invariant 0 <= i <= |durations| && total == Sum(durations[..i])
      {
        assert durations[..i + 1][..i] == durations[..i];
        total := total + durations[i];
        i := i + 1;
      }
      assert durations[..i] == durations;
      avg := Some(total / |durations|);
    }

    method AddNewDuration(newest: nat)
      modifies this`durations
      ensures durations == Pushed(old(durations), sizeMovingWindow, newest)
    {
      if |durations| == sizeMovingWindow && durations != [] {
        durations := durations[..|durations| - 1];
      }
      durations := [newest] + durations;
    }

    method Update(payload: T, now: int)
      requires Valid()
      modifies this
      ensures Valid()
      ensures teePayload == payload && instants == old(instants) + [now]
    {
      teePayload := payload;
      var before := lastHeartbeat;
      lastHeartbeat := now;
      OneMoreInterval(instants, now);
      OneMorePushed(sizeMovingWindow, Intervals(instants), Interval(before, now));
      instants := instants + [now];
      AddNewDuration(Interval(before, now));
    }
  }
}
