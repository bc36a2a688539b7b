/** The frame profiler (js/Profiler.js): a 30-slot histogram of the
    milliseconds between frame starts, a list of the intervals of 30 ms or
    more, and a list of all intervals, all cleared every 60th frame. */
module Profiling {
  import opened JsBuiltins

  /** Slots of the histogram: one per whole millisecond below 30. */
  const HistogramSize := 30
  /** The report (and reset) happens on every frame whose count is a multiple of this. */
  const ReportPeriod := 60

  /** The time between two frame starts. It is NaN on the first frame, whose
      predecessor's start time is still undefined; NaN is not below 30, so it
      is filed with the long times. */
  datatype Interval = Millis(ms: int) | NaN

  /** `frameStartTime - lastFrameStartTime`, NaN when either is undefined. */
  function Between(start: Option<int>, last: Option<int>): (r: Interval)
    ensures r.Millis? <==> start.Some? && last.Some?
    ensures r.Millis? ==> r.ms == start.value - last.value
  {
    if start.Some? && last.Some? then Millis(start.value - last.value) else NaN
  }

  /** An interval that indexes a histogram slot (`key < 30`). */
  predicate IsShort(key: Interval) {
    key.Millis? && key.ms < HistogramSize
  }

  function Sum(s: seq<int>): int {
    if s == [] then 0 else s[0] + Sum(s[1..])
  }

  function Zeros(n: nat): (r: seq<int>)
    ensures |r| == n && forall i :: 0 <= i < n ==> r[i] == 0
  {
    seq(n, _ => 0)
  }

  /** Adding one to a slot adds one to the total. */
  lemma {:induction false} SumIncrement(s: seq<int>, k: nat)
    requires k < |s|
    ensures Sum(s[k := s[k] + 1]) == Sum(s) + 1
  {
    if k > 0 {
      SumIncrement(s[1..], k - 1);
      assert s[k := s[k] + 1][1..] == s[1..][k - 1 := s[k] + 1];
    }
  }

  lemma {:induction false} SumZeros(n: nat)
    ensures Sum(Zeros(n)) == 0
  {
    if n > 0 {
      assert Zeros(n)[1..] == Zeros(n - 1);
      SumZeros(n - 1);
    }
  }

  /** The recorded data, as values. */
  datatype Stats = Stats(histogram: seq<int>, longTimes: seq<Interval>, allTimes: seq<Interval>)

  /** The state after construction and after every report. */
  function Cleared(): (r: Stats)
    ensures |r.histogram| == HistogramSize && r.longTimes == [] && r.allTimes == []
    ensures forall i :: 0 <= i < HistogramSize ==> r.histogram[i] == 0
  {
    Stats(Zeros(HistogramSize), [], [])
  }

  /** Filing one interval on a frame that does not report: a short interval
      counts in its slot, any other is kept in `longTimes`, and every one is
      kept in `allTimes`. */
  function Record(st: Stats, key: Interval): (r: Stats)
    requires |st.histogram| == HistogramSize
    requires key.Millis? ==> key.ms >= 0
    ensures |r.histogram| == HistogramSize
    ensures r.allTimes == st.allTimes + [key]
    // a long or NaN interval is listed in `longTimes`; a short one is not
    ensures r.longTimes == st.longTimes + (if IsShort(key) then [] else [key])
    // a short interval adds one to its own slot and to no other
    ensures forall j :: 0 <= j < HistogramSize ==>
      r.histogram[j] == st.histogram[j] + (if IsShort(key) && key.ms == j then 1 else 0)
  {
    if IsShort(key) then st.(histogram := st.histogram[key.ms := st.histogram[key.ms] + 1], allTimes := st.allTimes + [key])
    else st.(longTimes := st.longTimes + [key], allTimes := st.allTimes + [key])
  }

  /** The histogram total plus the length of `longTimes` equals the length of
      `allTimes`: a count only, implied by `Accounted`. */
  predicate Balanced(st: Stats) {
    Sum(st.histogram) + |st.longTimes| == |st.allTimes|
  }

  /** The intervals of `s` that are not short, in their order in `s`. */
  function Longs(s: seq<Interval>): (r: seq<Interval>)
    ensures |r| <= |s|
  {
    if s == [] then []
    else Longs(s[..|s| - 1]) + (if IsShort(s[|s| - 1]) then [] else [s[|s| - 1]])
  }

  /** `Longs` keeps exactly the entries that are not short. */
  lemma {:induction false} LongsAreTheLongOnes(s: seq<Interval>)
    ensures forall x :: x in Longs(s) <==> x in s && !IsShort(x)
  {
    if s != [] {
      var p := s[..|s| - 1];
      assert s == p + [s[|s| - 1]];
      LongsAreTheLongOnes(p);
    }
  }

  /** Slot `j` of the histogram that counts how often `Millis(j)` occurs in `s`. */
  function SlotCounts(s: seq<Interval>): (r: seq<int>)
    ensures |r| == HistogramSize
  {
    seq(HistogramSize, j => multiset(s)[Millis(j)])
  }

  /** Each interval is accounted for on its own: no interval is negative,
      slot `j` counts exactly the occurrences of `Millis(j)` in `allTimes`,
      and `longTimes` is exactly the non-short entries of `allTimes`, in order. */
  predicate Accounted(st: Stats) {
    && (forall i :: 0 <= i < |st.allTimes| && st.allTimes[i].Millis? ==> st.allTimes[i].ms >= 0)
    && st.histogram == SlotCounts(st.allTimes)
    && st.longTimes == Longs(st.allTimes)
  }

  /** Appending one non-negative or NaN interval moves its own slot, when it is short. */
  lemma SlotCountsAppend(s: seq<Interval>, key: Interval)
    requires key.Millis? ==> key.ms >= 0
    ensures IsShort(key) ==>
      SlotCounts(s + [key]) == SlotCounts(s)[key.ms := SlotCounts(s)[key.ms] + 1]
    ensures !IsShort(key) ==> SlotCounts(s + [key]) == SlotCounts(s)
  {
    assert multiset(s + [key]) == multiset(s) + multiset{key};
  }

  /** With no negative interval, the short ones all land in a slot, so the
      slot counts and the long ones add up to all of them. */
  lemma {:induction false} CountsAddUp(s: seq<Interval>)
    requires forall i :: 0 <= i < |s| && s[i].Millis? ==> s[i].ms >= 0
    ensures Sum(SlotCounts(s)) + |Longs(s)| == |s|
  {
    if s == [] {
      assert SlotCounts(s) == Zeros(HistogramSize);
      SumZeros(HistogramSize);
    } else {
      var p, key := s[..|s| - 1], s[|s| - 1];
      assert s == p + [key];
      CountsAddUp(p);
      SlotCountsAppend(p, key);
      if IsShort(key) {
        SumIncrement(SlotCounts(p), key.ms);
      }
    }
  }

  /** Accounting for each interval implies the count balance. */
  lemma AccountedIsBalanced(st: Stats)
    requires Accounted(st)
    ensures Balanced(st)
  {
    CountsAddUp(st.allTimes);
  }

  lemma ClearedAccounted()
    ensures Accounted(Cleared())
  {
    assert SlotCounts([]) == Zeros(HistogramSize);
  }

  lemma RecordKeepsAccounted(st: Stats, key: Interval)
    requires |st.histogram| == HistogramSize && (key.Millis? ==> key.ms >= 0)
    requires Accounted(st)
    ensures Accounted(Record(st, key))
  {
    var s := st.allTimes + [key];
    assert s[..|s| - 1] == st.allTimes;
    SlotCountsAppend(st.allTimes, key);
  }

  lemma ClearedBalanced()
    ensures Balanced(Cleared())
  {
    SumZeros(HistogramSize);
  }

  lemma RecordKeepsBalance(st: Stats, key: Interval)
    requires |st.histogram| == HistogramSize && (key.Millis? ==> key.ms >= 0)
    requires Balanced(st)
    ensures Balanced(Record(st, key))
  {
    if IsShort(key) {
      SumIncrement(st.histogram, key.ms);
    }
  }

  class Profiler {
    var histogram: array<int>
    var longTimes: seq<Interval>
    var allTimes: seq<Interval>
    var frameCount: nat
    var frameStartTime: Option<int>
    var lastFrameStartTime: Option<int>

    function Data(): Stats
      reads this, histogram
    {
      Stats(histogram[..], longTimes, allTimes)
    }

    ghost predicate Valid()
      reads this, histogram
    {
      histogram.Length == HistogramSize && Accounted(Data()) && Balanced(Data())
    }

    /** 30 zero slots, empty lists, no frame yet. */
    constructor ()
      ensures Valid() && fresh(histogram)
      ensures Data() == Cleared()
      ensures frameCount == 0 && frameStartTime == None && lastFrameStartTime == None
    {
      var slots := new int[HistogramSize];
      for i := 0 to HistogramSize
        invariant forall j :: 0 <= j < i ==> slots[j] == 0
      {
        slots[i] := 0;
      }
      histogram := slots;
      longTimes, allTimes := [], [];
      frameCount := 0;
      frameStartTime, lastFrameStartTime := None, None;
      new;
      assert histogram[..] == Zeros(HistogramSize);
      ClearedAccounted();
      ClearedBalanced();
    }

    /** A frame starts at time `now` (`Date.now()`). */
    method FrameStarted(now: int)
      modifies this
      ensures frameStartTime == Some(now) && frameCount == old(frameCount) + 1
      ensures histogram == old(histogram) && longTimes == old(longTimes) && allTimes == old(allTimes)
      ensures lastFrameStartTime == old(lastFrameStartTime)
    {
      frameStartTime := Some(now);
      frameCount := frameCount + 1;
    }

    /** The for loop of a reporting frame: every slot back to 0. */
    method ClearHistogram()
      requires histogram.Length == HistogramSize
      modifies histogram
      ensures histogram[..] == Zeros(HistogramSize)
    {
      for i := 0 to HistogramSize
        invariant forall j :: 0 <= j < i ==> histogram[j] == 0
      {
        histogram[i] := 0;
      }
    }

    /** The reporting branch of a frame end: the histogram and both lists are emptied. */
    method Reset()
      requires histogram.Length == HistogramSize
      modifies this, histogram
      ensures Valid() && histogram == old(histogram)
      ensures Data() == Cleared()
      ensures frameCount == old(frameCount) && frameStartTime == old(frameStartTime)
      ensures lastFrameStartTime == old(lastFrameStartTime)
    {
      ClearHistogram();
      longTimes := [];
      allTimes := [];
      ClearedAccounted();
      ClearedBalanced();
    }

    /** The else branch of a frame end: a short interval increments its
        slot, any other is pushed onto `longTimes`, and every one onto `allTimes`. */
    method File(key: Interval)
      requires Valid() && (key.Millis? ==> key.ms >= 0)
      modifies this, histogram
      ensures Valid() && histogram == old(histogram)
      ensures Data() == Record(old(Data()), key)
      ensures frameCount == old(frameCount) && frameStartTime == old(frameStartTime)
      ensures lastFrameStartTime == old(lastFrameStartTime)
    {
      ghost var after := Record(Data(), key);
      RecordKeepsAccounted(Data(), key);
      RecordKeepsBalance(Data(), key);
      if IsShort(key) {
        histogram[key.ms] := histogram[key.ms] + 1;
        assert histogram[..] == after.histogram;
      } else {
        longTimes := longTimes + [key];
      }
      allTimes := allTimes + [key];
      assert Data() == after;
    }

    /** A frame ends. On every 60th frame the data is cleared (after the
        report, which is not modelled) and the current interval is dropped;
        on any other frame the interval is filed. Either way the current
        start time becomes the previous one. */
    method FrameEnded()
      requires Valid()
      requires var key := Between(frameStartTime, lastFrameStartTime);
        frameCount % ReportPeriod != 0 && key.Millis? ==> key.ms >= 0
      modifies this, histogram
      ensures Valid() && histogram == old(histogram)
      ensures frameCount == old(frameCount) && frameStartTime == old(frameStartTime)
      ensures lastFrameStartTime == frameStartTime
      ensures old(frameCount) % ReportPeriod == 0 ==> Data() == Cleared()
      ensures old(frameCount) % ReportPeriod != 0 ==>
        Data() == Record(old(Data()), Between(old(frameStartTime), old(lastFrameStartTime)))
      // on a frame that files a short interval, only its slot moves
      ensures old(frameCount) % ReportPeriod != 0 ==>
        var key := Between(old(frameStartTime), old(lastFrameStartTime));
        forall j :: 0 <= j < HistogramSize ==>
          histogram[j] == old(histogram[j]) + (if IsShort(key) && key.ms == j then 1 else 0)
    {
      var key := Between(frameStartTime, lastFrameStartTime);
      if frameCount % ReportPeriod == 0 {
        Reset();
      } else {
        File(key);
      }
      lastFrameStartTime := frameStartTime;
    }
  }
}
