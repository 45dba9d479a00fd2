/**
 * Batching by point width. A range of points is split into maximal runs of
 * equal width; each run is drawn with one point-size setting and one draw.
 * This module defines the decomposition, proves it is the only partition with
 * those properties, counts its runs, and gives the event sequence the
 * variable-thickness draw produces.
 */
module PointRuns {
  import opened Gl

  /** A run [start, start + len) of points that all have width `width`. */
  datatype Run = Run(start: int, len: nat, width: Float)

  function End(r: Run): (e: int)
  {
    r.start + r.len
  }

  /** `rs` tiles [lo, hi): non-empty runs, the first at lo, each starting where
      the previous one ends, the last ending at hi. */
  ghost predicate Tiles(rs: seq<Run>, lo: int, hi: int)
  {
    && (|rs| == 0 <==> lo >= hi)
    && (|rs| > 0 ==> rs[0].start == lo && End(rs[|rs| - 1]) == hi)
    && (forall k :: 0 <= k < |rs| ==> rs[k].len > 0)
    && (forall k :: 0 <= k < |rs| - 1 ==> Joined(rs, k))
  }

  /** Run k + 1 starts where run k ends. */
  ghost predicate Joined(rs: seq<Run>, k: int)
    requires 0 <= k < |rs| - 1
  {
    End(rs[k]) == rs[k + 1].start
  }

  /** Runs k and k + 1 have different widths. */
  ghost predicate WidthChanges(rs: seq<Run>, k: int)
    requires 0 <= k < |rs| - 1
  {
    rs[k].width != rs[k + 1].width
  }

  /** Run r lies within w and every one of its points has the run's width. */
  ghost predicate Uniform(w: seq<Float>, r: Run)
  {
    0 <= r.start && End(r) <= |w| && forall j :: r.start <= j < End(r) ==> w[j] == r.width
  }

  /** Every run is uniform, and neighbouring runs have different widths (so
      no run could be extended). */
  ghost predicate MaximalRuns(w: seq<Float>, rs: seq<Run>)
  {
    && (forall k :: 0 <= k < |rs| ==> Uniform(w, rs[k]))
    && (forall k :: 0 <= k < |rs| - 1 ==> WidthChanges(rs, k))
  }

  ghost predicate IsRunDecomposition(w: seq<Float>, lo: int, hi: int, rs: seq<Run>)
  {
    Tiles(rs, lo, hi) && MaximalRuns(w, rs)
  }

  /** The length of the longest run of width w[s] that starts at s and stays below hi. */
  function RunLength(w: seq<Float>, s: int, hi: int): (n: nat)
    requires 0 <= s < hi <= |w|
    ensures 1 <= n <= hi - s
    ensures forall j :: s <= j < s + n ==> w[j] == w[s]
    ensures s + n < hi ==> w[s + n] != w[s]
    decreases hi - s
  {
    if s + 1 == hi || w[s + 1] != w[s] then 1 else 1 + RunLength(w, s + 1, hi)
  }

  /** The maximal equal-width runs of [lo, hi), in increasing order. */
  function Runs(w: seq<Float>, lo: int, hi: int): (rs: seq<Run>)
    requires 0 <= lo && hi <= |w|
    decreases hi - lo
  {
    if lo >= hi then []
    else
      var n := RunLength(w, lo, hi);
      [Run(lo, n, w[lo])] + Runs(w, lo + n, hi)
  }

  /** Runs consecutively tiles [lo, hi) with maximal equal-width runs. */
  lemma {:induction false} RunsAreDecomposition(w: seq<Float>, lo: int, hi: int)
    requires 0 <= lo && hi <= |w|
    ensures IsRunDecomposition(w, lo, hi, Runs(w, lo, hi))
    decreases hi - lo
  {
    if lo < hi {
      var n := RunLength(w, lo, hi);
      var rest := Runs(w, lo + n, hi);
      assert Runs(w, lo, hi) == [Run(lo, n, w[lo])] + rest;
      RunsAreDecomposition(w, lo + n, hi);
      ConsRun(w, lo, n, hi, rest);
    }
  }

  /** A maximal first run followed by a decomposition of the remainder is a
      decomposition of the whole range. */
  lemma {:induction false} ConsRun(w: seq<Float>, lo: int, n: nat, hi: int, rest: seq<Run>)
    requires 0 <= lo < hi <= |w| && 1 <= n <= hi - lo
    requires forall j :: lo <= j < lo + n ==> w[j] == w[lo]
    requires lo + n < hi ==> w[lo + n] != w[lo]
    requires IsRunDecomposition(w, lo + n, hi, rest)
    ensures IsRunDecomposition(w, lo, hi, [Run(lo, n, w[lo])] + rest)
  {
    var r := Run(lo, n, w[lo]);
    var rs := [r] + rest;
    forall k | 1 <= k < |rs|
      ensures rs[k] == rest[k - 1]
    {
    }
    if |rest| > 0 {
      assert rest[0].start == lo + n;
      assert Uniform(w, rest[0]);
      assert rest[0].width == w[lo + n];
    }
    forall k | 0 <= k < |rs| - 1
      ensures Joined(rs, k) && WidthChanges(rs, k)
    {
      if k > 0 {
        assert Joined(rest, k - 1) && WidthChanges(rest, k - 1);
      }
    }
    assert Tiles(rs, lo, hi);
    assert Uniform(w, rs[0]);
  }

  /** Peeling one run off the front: if w is constant on [lo, i) and i is hi
      or a change of width, the first run is [lo, i). */
  lemma {:induction false} RunsSplit(w: seq<Float>, lo: int, i: int, hi: int)
    requires 0 <= lo < i <= hi <= |w|
    requires forall j :: lo <= j < i ==> w[j] == w[lo]
    requires i < hi ==> w[i] != w[lo]
    ensures Runs(w, lo, hi) == [Run(lo, i - lo, w[lo])] + Runs(w, i, hi)
  {
    var n := RunLength(w, lo, hi);
    assert n == i - lo;
    assert Runs(w, lo, hi) == [Run(lo, n, w[lo])] + Runs(w, lo + n, hi);
  }

  /** Every run of [lo, hi) is non-empty and lies inside [lo, hi). */
  lemma {:induction false} RunsWithin(w: seq<Float>, lo: int, hi: int)
    requires 0 <= lo && hi <= |w|
    ensures forall k :: 0 <= k < |Runs(w, lo, hi)| ==>
      Runs(w, lo, hi)[k].len > 0 && lo <= Runs(w, lo, hi)[k].start && End(Runs(w, lo, hi)[k]) <= hi
  {
    var rs := Runs(w, lo, hi);
    RunsAreDecomposition(w, lo, hi);
    forall k | 0 <= k < |rs|
      ensures rs[k].len > 0 && lo <= rs[k].start && End(rs[k]) <= hi
    {
      if 0 < k {
        TilesOrdered(rs, lo, hi, 0, k);
      }
      if k < |rs| - 1 {
        TilesOrdered(rs, lo, hi, k, |rs| - 1);
      }
      assert rs[|rs| - 1].len > 0;
    }
  }

  /** Ends of earlier runs never pass the starts of later ones. */
  lemma {:induction false} TilesOrdered(rs: seq<Run>, lo: int, hi: int, k: int, m: int)
    requires Tiles(rs, lo, hi)
    requires 0 <= k < m < |rs|
    ensures End(rs[k]) <= rs[m].start
    decreases m - k
  {
    assert Joined(rs, k);
    if k + 1 < m {
      TilesOrdered(rs, lo, hi, k + 1, m);
    }
  }

  /** Every point of [lo, hi) lies in exactly one run of a tiling. */
  lemma {:induction false} RunOf(rs: seq<Run>, lo: int, hi: int, j: int) returns (k: nat)
    requires Tiles(rs, lo, hi)
    requires lo <= j < hi
    ensures k < |rs| && rs[k].start <= j < End(rs[k])
    ensures forall m :: 0 <= m < |rs| && rs[m].start <= j < End(rs[m]) ==> m == k
  {
    k := 0;
    while End(rs[k]) <= j
      invariant 0 <= k < |rs| && rs[k].start <= j
      decreases |rs| - k
    {
      assert k < |rs| - 1;
      assert Joined(rs, k);
      k := k + 1;
    }
    forall m | 0 <= m < |rs| && rs[m].start <= j < End(rs[m])
      ensures m == k
    {
      if m < k {
        TilesOrdered(rs, lo, hi, m, k);
      } else if k < m {
        TilesOrdered(rs, lo, hi, k, m);
      }
    }
  }

  /** Dropping the first run of a decomposition of [lo, hi) leaves a
      decomposition of the rest, which starts at a change of width. */
  lemma {:induction false} DecompositionTail(w: seq<Float>, lo: int, hi: int, rs: seq<Run>)
    requires IsRunDecomposition(w, lo, hi, rs) && |rs| > 0
    ensures End(rs[0]) <= hi && (End(rs[0]) == hi <==> |rs| == 1)
    ensures End(rs[0]) < hi ==> w[End(rs[0])] != rs[0].width
    ensures IsRunDecomposition(w, End(rs[0]), hi, rs[1..])
  {
    var r := rs[0];
    var tail := rs[1..];
    if |rs| > 1 {
      TilesOrdered(rs, lo, hi, 0, |rs| - 1);
      assert rs[|rs| - 1].len > 0;
      assert Joined(rs, 0) && WidthChanges(rs, 0);
      assert Uniform(w, rs[1]);
      assert tail[0] == rs[1];
      assert tail[|tail| - 1] == rs[|rs| - 1];
    }
    forall k | 0 <= k < |tail|
      ensures Uniform(w, tail[k])
    {
      assert tail[k] == rs[k + 1];
    }
    forall k | 0 <= k < |tail| - 1
      ensures Joined(tail, k) && WidthChanges(tail, k)
    {
      assert tail[k] == rs[k + 1] && tail[k + 1] == rs[k + 2];
      assert Joined(rs, k + 1) && WidthChanges(rs, k + 1);
    }
  }

  /** Runs is the only decomposition of [lo, hi) into maximal equal-width runs. */
  lemma {:induction false} RunsUnique(w: seq<Float>, lo: int, hi: int, rs: seq<Run>)
    requires 0 <= lo && hi <= |w|
    requires IsRunDecomposition(w, lo, hi, rs)
    ensures rs == Runs(w, lo, hi)
    decreases |rs|
  {
    if |rs| > 0 {
      var r := rs[0];
      assert Uniform(w, r);
      DecompositionTail(w, lo, hi, rs);
      RunsSplit(w, lo, End(r), hi);
      RunsUnique(w, End(r), hi, rs[1..]);
      assert rs == [r] + rs[1..];
    }
  }

  /** The number of i with lo < i < hi and w[i] != w[i - 1]. */
  function Changes(w: seq<Float>, lo: int, hi: int): (c: nat)
    requires 0 <= lo && hi <= |w|
    decreases hi - lo
  {
    if hi - lo <= 1 then 0
    else (if w[lo + 1] != w[lo] then 1 else 0) + Changes(w, lo + 1, hi)
  }

  /** Inside a constant stretch [lo, m] a change count does not move. */
  lemma {:induction false} ChangesConstant(w: seq<Float>, lo: int, m: int, hi: int)
    requires 0 <= lo <= m < hi <= |w|
    requires forall j :: lo <= j <= m ==> w[j] == w[lo]
    ensures Changes(w, lo, hi) == Changes(w, m, hi)
    decreases m - lo
  {
    if lo < m {
      assert w[lo + 1] == w[lo];
      ChangesConstant(w, lo + 1, m, hi);
    }
  }

  /** There is one run more than there are changes of width inside the range. */
  lemma {:induction false} RunCount(w: seq<Float>, lo: int, hi: int)
    requires 0 <= lo < hi <= |w|
    ensures |Runs(w, lo, hi)| == 1 + Changes(w, lo, hi)
    decreases hi - lo
  {
    var n := RunLength(w, lo, hi);
    ChangesConstant(w, lo, lo + n - 1, hi);
    if lo + n < hi {
      assert w[lo + n - 1] == w[lo];
      RunCount(w, lo + n, hi);
    }
  }

  // ---------------------------------------------------------------------------
  // The events of a draw

  /** What a basic draw depends on: the stored point count and the client
      arrays that will be enabled while it draws. */
  datatype DrawSetup = DrawSetup(pointCount: int, arrays: ClientArrays)

  /** The events one basic DrawPoints(start, npt) adds: a single draw call when
      the range is non-empty and ends within the stored points, else nothing. */
  function BasicEvents(d: DrawSetup, start: int, npt: int): (ev: seq<Event>)
    ensures |ev| <= 1
    ensures |ev| == 1 <==> npt > 0 && start + npt <= d.pointCount
    ensures |ev| == 1 ==> ev[0] == DrawArrays(start, npt, d.arrays)
  {
    if npt > 0 && start + npt <= d.pointCount then [DrawArrays(start, npt, d.arrays)] else []
  }

  /** For each run in turn: set its width, then draw it. */
  function RunEvents(rs: seq<Run>, d: DrawSetup): (ev: seq<Event>)
  {
    if rs == [] then [] else [PointSize(rs[0].width)] + BasicEvents(d, rs[0].start, rs[0].len) + RunEvents(rs[1..], d)
  }

  lemma {:induction false} RunEventsAppend(rs: seq<Run>, r: Run, d: DrawSetup)
    ensures RunEvents(rs + [r], d) == RunEvents(rs, d) + [PointSize(r.width)] + BasicEvents(d, r.start, r.len)
    decreases |rs|
  {
    if rs == [] {
      assert [r][1..] == [];
    } else {
      assert (rs + [r])[1..] == rs[1..] + [r];
      RunEventsAppend(rs[1..], r, d);
    }
  }

  /** The events of the variable-thickness DrawPoints(start, npt): the width
      at start is set even when the range is empty. */
  function ThicknessEvents(w: seq<Float>, start: int, npt: int, d: DrawSetup): (ev: seq<Event>)
    requires 0 <= start < |w| && start + npt <= |w|
  {
    if npt > 0 then RunEvents(Runs(w, start, start + npt), d) else [PointSize(w[start])]
  }

  /** Some event of `ev` is a draw call. */
  ghost predicate HasDraw(ev: seq<Event>)
  {
    exists k | 0 <= k < |ev| :: ev[k].DrawArrays?
  }

  /** Concatenated events contain a draw exactly when one of the parts does. */
  lemma {:induction false} HasDrawAppend(a: seq<Event>, b: seq<Event>)
    ensures HasDraw(a + b) <==> HasDraw(a) || HasDraw(b)
  {
    if HasDraw(a + b) {
      var k :| 0 <= k < |a + b| && (a + b)[k].DrawArrays?;
      if k < |a| {
        assert a[k].DrawArrays?;
      } else {
        assert b[k - |a|].DrawArrays?;
      }
    }
    if HasDraw(a) {
      var k :| 0 <= k < |a| && a[k].DrawArrays?;
      assert (a + b)[k].DrawArrays?;
    }
    if HasDraw(b) {
      var k :| 0 <= k < |b| && b[k].DrawArrays?;
      assert (a + b)[|a| + k].DrawArrays?;
    }
  }

  /** A basic draw's events contain a draw exactly when it draws. */
  lemma BasicEventsDraw(d: DrawSetup, start: int, npt: int)
    ensures HasDraw(BasicEvents(d, start, npt)) <==> npt > 0 && start + npt <= d.pointCount
  {
    if npt > 0 && start + npt <= d.pointCount {
      assert BasicEvents(d, start, npt)[0].DrawArrays?;
    }
  }

  /** Moving the head of the still-open part onto the completed part. */
  lemma SeqStep<T>(all: seq<T>, done: seq<T>, open: seq<T>, x: T, rest: seq<T>)
    requires all == done + open && open == [x] + rest
    ensures all == (done + [x]) + rest
  {
  }

  /** Drawing the completed run and setting the next width extends the
      events of the runs drawn so far by that run. */
  lemma {:induction false} ScanEventsStep(done: seq<Run>, r: Run, next: Float, d: DrawSetup)
    ensures RunEvents(done, d) + [PointSize(r.width)] + BasicEvents(d, r.start, r.len) + [PointSize(next)] ==
      RunEvents(done + [r], d) + [PointSize(next)]
  {
    RunEventsAppend(done, r, d);
  }

  /** The end of the width scan: the run still open when the range ends is
      the last run, and its draw completes the events of the whole range. */
  lemma {:induction false} ScanEnd(w: seq<Float>, start: int, n: int, last: int, done: seq<Run>, d: DrawSetup)
    requires 0 <= start <= last < start + n <= |w|
    requires forall j :: last <= j < start + n ==> w[j] == w[last]
    requires Runs(w, start, start + n) == done + Runs(w, last, start + n)
    ensures RunEvents(done, d) + [PointSize(w[last])] + BasicEvents(d, last, start + n - last) ==
      ThicknessEvents(w, start, n, d)
  {
    RunsSplit(w, last, start + n, start + n);
    assert Runs(w, start + n, start + n) == [];
    RunEventsAppend(done, Run(last, start + n - last, w[last]), d);
    assert Runs(w, start, start + n) == done + [Run(last, start + n - last, w[last])];
  }

  /** The state of the width scan of DrawPoints over [start, start + n) once
      [start, i) has been looked at: `done` are the completed runs and the
      open run starts at `last`. */
  ghost predicate Scanning(w: seq<Float>, start: int, n: int, last: int, i: int, done: seq<Run>)
  {
    && 0 <= start <= last <= i <= start + n <= |w| && last < start + n
    && (forall j :: last <= j < i ==> w[j] == w[last])
    && Runs(w, start, start + n) == done + Runs(w, last, start + n)
  }

  /** The events of the scan so far: those of the completed runs, then the
      point size of the open run. */
  ghost predicate Emitted(done: seq<Run>, width: Float, d: DrawSetup, ev: seq<Event>)
  {
    ev == RunEvents(done, d) + [PointSize(width)]
  }

  lemma ScanBegin(w: seq<Float>, start: int, n: int, d: DrawSetup)
    requires 0 <= start && 0 < n && start + n <= |w|
    ensures Scanning(w, start, n, start, start, [])
    ensures Emitted([], w[start], d, [PointSize(w[start])])
  {
    assert RunEvents([], d) == [];
  }

  /** A point of the open run's width extends the open run. */
  lemma ScanSame(w: seq<Float>, start: int, n: int, last: int, i: int, done: seq<Run>)
    requires Scanning(w, start, n, last, i, done) && i < start + n && w[i] == w[last]
    ensures Scanning(w, start, n, last, i + 1, done)
  {
  }

  /** A point of another width completes the open run, and the new open run
      starts at i. */
  lemma {:induction false} ScanChange(w: seq<Float>, start: int, n: int, last: int, i: int, done: seq<Run>)
    requires Scanning(w, start, n, last, i, done) && i < start + n && w[i] != w[last]
    ensures last < i
    ensures Scanning(w, start, n, i, i + 1, done + [Run(last, i - last, w[last])])
  {
    RunsSplit(w, last, i, start + n);
    SeqStep(Runs(w, start, start + n), done, Runs(w, last, start + n), Run(last, i - last, w[last]), Runs(w, i, start + n));
  }

  /** Drawing a completed run and setting the next width are the events of
      one more completed run. */
  lemma {:induction false} EmitRun(done: seq<Run>, r: Run, next: Float, d: DrawSetup, ev: seq<Event>)
    requires Emitted(done, r.width, d, ev)
    ensures Emitted(done + [r], next, d, ev + BasicEvents(d, r.start, r.len) + [PointSize(next)])
  {
    ScanEventsStep(done, r, next, d);
  }

  /** At the end of the range the open run is non-empty, and its draw
      completes the events of the variable-thickness draw. */
  lemma {:induction false} ScanFinish(w: seq<Float>, start: int, n: int, last: int, done: seq<Run>,
                                      d: DrawSetup, ev: seq<Event>)
    requires Scanning(w, start, n, last, start + n, done) && Emitted(done, w[last], d, ev)
    ensures last < start + n
    ensures ev + BasicEvents(d, last, start + n - last) == ThicknessEvents(w, start, n, d)
  {
    ScanEnd(w, start, n, last, done, d);
  }

  /** A scan over an empty range only sets the width at start. */
  lemma ScanEmpty(w: seq<Float>, start: int, n: int, d: DrawSetup)
    requires 0 <= start < |w| && start + n <= |w| && n <= 0
    ensures RunEvents([], d) + [PointSize(w[start])] == ThicknessEvents(w, start, n, d)
  {
  }

  /** When every run ends within the stored points, the events alternate:
      the width of run k, then the draw of run k. */
  lemma {:induction false} RunEventsShape(rs: seq<Run>, d: DrawSetup)
    requires forall k :: 0 <= k < |rs| ==> rs[k].len > 0 && End(rs[k]) <= d.pointCount
    ensures |RunEvents(rs, d)| == 2 * |rs|
    ensures forall k :: 0 <= k < |rs| ==> RunEvents(rs, d)[2 * k] == PointSize(rs[k].width)
    ensures forall k :: 0 <= k < |rs| ==> RunEvents(rs, d)[2 * k + 1] == DrawArrays(rs[k].start, rs[k].len, d.arrays)
    decreases |rs|
  {
    if rs != [] {
      RunEventsShape(rs[1..], d);
      var ev := RunEvents(rs, d);
      var tail := RunEvents(rs[1..], d);
      assert ev == [PointSize(rs[0].width), DrawArrays(rs[0].start, rs[0].len, d.arrays)] + tail;
      forall k | 1 <= k < |rs|
        ensures ev[2 * k] == PointSize(rs[k].width)
        ensures ev[2 * k + 1] == DrawArrays(rs[k].start, rs[k].len, d.arrays)
      {
        assert ev[2 * k] == tail[2 * (k - 1)];
        assert ev[2 * k + 1] == tail[2 * (k - 1) + 1];
        assert rs[1..][k - 1] == rs[k];
      }
    }
  }

  /** The trace of a variable-thickness draw over stored points: one width
      setting and one draw per maximal run, alternating, run k's width just
      before run k's draw. */
  lemma {:induction false} ThicknessTraceShape(w: seq<Float>, start: int, npt: int, d: DrawSetup)
    requires 0 <= start && 0 < npt && start + npt <= |w| && start + npt <= d.pointCount
    ensures var rs := Runs(w, start, start + npt);
      var ev := ThicknessEvents(w, start, npt, d);
      && |ev| == 2 * |rs| == 2 * (1 + Changes(w, start, start + npt))
      && (forall k :: 0 <= k < |rs| ==> ev[2 * k] == PointSize(rs[k].width))
      && (forall k :: 0 <= k < |rs| ==> ev[2 * k + 1] == DrawArrays(rs[k].start, rs[k].len, d.arrays))
  {
    var rs := Runs(w, start, start + npt);
    var ev := ThicknessEvents(w, start, npt, d);
    assert ev == RunEvents(rs, d);
    RunsWithin(w, start, start + npt);
    assert forall k :: 0 <= k < |rs| ==> rs[k].len > 0 && End(rs[k]) <= d.pointCount;
    RunCount(w, start, start + npt);
    RunEventsShape(rs, d);
  }

  /** The trace begins by setting the width at start and ends with a draw. */
  lemma {:induction false} ThicknessTraceEnds(w: seq<Float>, start: int, npt: int, d: DrawSetup)
    requires 0 <= start && 0 < npt && start + npt <= |w| && start + npt <= d.pointCount
    ensures |ThicknessEvents(w, start, npt, d)| >= 2
    ensures ThicknessEvents(w, start, npt, d)[0] == PointSize(w[start])
    ensures ThicknessEvents(w, start, npt, d)[|ThicknessEvents(w, start, npt, d)| - 1].DrawArrays?
  {
    var rs := Runs(w, start, start + npt);
    ThicknessTraceShape(w, start, npt, d);
    RunsAreDecomposition(w, start, start + npt);
    var last := |rs| - 1;
    assert ThicknessEvents(w, start, npt, d)[2 * last + 1] == DrawArrays(rs[last].start, rs[last].len, d.arrays);
    assert ThicknessEvents(w, start, npt, d)[2 * 0] == PointSize(rs[0].width);
  }
}
