/** What the kinematics of `pipeline/02_stats.py` come to, said without its own helper functions:
    medians by counting, rows by cases, path lengths exactly, and the fields of a block record. */
module KinematicsExact {
  import opened Stats

  // ---------------------------------------------------------------- medians by counting

  /** How many of the values lie above `v`, or else below it. */
  function Count(vs: seq<real>, v: real, above: bool): nat {
    if vs == [] then 0 else (if Beyond(vs[0], v, above) then 1 else 0) + Count(vs[1..], v, above)
  }

  predicate Beyond(x: real, v: real, above: bool) {
    if above then x > v else x < v
  }

  function Below(vs: seq<real>, v: real): nat {
    Count(vs, v, false)
  }

  function Above(vs: seq<real>, v: real): nat {
    Count(vs, v, true)
  }

  /** `v` is among the values and would stand at index `r` if they were sorted. */
  predicate AtRank(vs: seq<real>, r: int, v: real) {
    0 <= r < |vs| && v in vs && Below(vs, v) <= r && Above(vs, v) <= |vs| - 1 - r
  }

  /** The two middle values of an even number. */
  predicate AreMiddle(vs: seq<real>, low: real, high: real) {
    AtRank(vs, |vs| / 2 - 1, low) && AtRank(vs, |vs| / 2, high)
  }

  /** An odd number of values has the middle one as its median, no more than half of them lying on
      either side; an even number has the mean of its two middle ones. */
  ghost predicate IsMedian(vs: seq<real>, m: real) {
    if |vs| % 2 == 1 then AtRank(vs, |vs| / 2, m)
    else exists low, high :: AreMiddle(vs, low, high) && m == (low + high) / 2.0
  }

  lemma {:induction false} InsertCounts(sorted: seq<real>, v: real, w: real, above: bool)
    ensures Count(Insert(sorted, v), w, above) == Count(sorted, w, above) + if Beyond(v, w, above) then 1 else 0
    ensures forall x :: x in Insert(sorted, v) <==> x == v || x in sorted
  {
    if sorted == [] || v <= sorted[0] {
      assert ([v] + sorted)[1..] == sorted;
    } else {
      InsertCounts(sorted[1..], v, w, above);
      assert ([sorted[0]] + Insert(sorted[1..], v))[1..] == Insert(sorted[1..], v);
      assert sorted == [sorted[0]] + sorted[1..];
    }
  }

  predicate Rising(vs: seq<real>) {
    forall i, j :: 0 <= i < j < |vs| ==> vs[i] <= vs[j]
  }

  lemma {:induction false} InsertRises(sorted: seq<real>, v: real)
    requires Rising(sorted)
    ensures Rising(Insert(sorted, v))
  {
    if sorted != [] && v > sorted[0] {
      var rest := sorted[1..];
      InsertRises(rest, v);
      InsertCounts(rest, v, v, true);
      forall j | 0 <= j < |Insert(rest, v)| ensures sorted[0] <= Insert(rest, v)[j] {
        assert Insert(rest, v)[j] in Insert(rest, v);
        if Insert(rest, v)[j] != v {
          var k :| 0 <= k < |rest| && rest[k] == Insert(rest, v)[j];
          assert rest[k] == sorted[k + 1];
        }
      }
    }
  }

  /** Sorting keeps every count and every member, and sorts. */
  lemma {:induction false} OrderedCounts(vs: seq<real>, w: real, above: bool)
    ensures Count(Ordered(vs), w, above) == Count(vs, w, above)
    ensures Rising(Ordered(vs)) && forall x :: x in Ordered(vs) <==> x in vs
  {
    if vs != [] {
      OrderedCounts(vs[1..], w, above);
      InsertCounts(Ordered(vs[1..]), vs[0], w, above);
      InsertRises(Ordered(vs[1..]), vs[0]);
    }
  }

  lemma {:induction false} NoneBefore(vs: seq<real>, v: real, above: bool, r: nat)
    requires r <= |vs| && forall k :: 0 <= k < r ==> !Beyond(vs[k], v, above)
    ensures Count(vs, v, above) <= |vs| - r
  {
    if vs != [] {
      NoneBefore(vs[1..], v, above, if r == 0 then 0 else r - 1);
    }
  }

  lemma {:induction false} NoneFrom(vs: seq<real>, v: real, above: bool, r: nat)
    requires r <= |vs| && forall k :: r <= k < |vs| ==> !Beyond(vs[k], v, above)
    ensures Count(vs, v, above) <= r
  {
    if vs != [] {
      NoneFrom(vs[1..], v, above, if r == 0 then 0 else r - 1);
    }
  }

  /** The value the sort puts at an index has that rank. */
  lemma SortedAtRank(vs: seq<real>, r: nat)
    requires r < |vs|
    ensures AtRank(vs, r, Ordered(vs)[r])
  {
    var o := Ordered(vs);
    hide Ordered, Count;
    var v := o[r];
    OrderedCounts(vs, v, false);
    OrderedCounts(vs, v, true);
    assert Count(o, v, false) <= r by {
      NoneFrom(o, v, false, r);
    }
    assert Count(o, v, true) <= |o| - (r + 1) by {
      NoneBefore(o, v, true, r + 1);
    }
    assert v in o;
  }

  lemma {:induction false} CountsCover(vs: seq<real>, low: real, high: real)
    requires low < high
    ensures Below(vs, high) + Above(vs, low) >= |vs|
  {
    if vs != [] {
      CountsCover(vs[1..], low, high);
    }
  }

  lemma RankUnique(vs: seq<real>, r: int, v: real, w: real)
    requires AtRank(vs, r, v) && AtRank(vs, r, w)
    ensures v == w
  {
    if v < w {
      CountsCover(vs, v, w);
    } else if w < v {
      CountsCover(vs, w, v);
    }
  }

  /** The computed median is the one and only median by counting. */
  lemma MedianIs(vs: seq<real>, m: real)
    requires vs != []
    ensures IsMedian(vs, m) <==> m == Median(vs)
  {
    hide AtRank;
    var n := |vs| / 2;
    SortedAtRank(vs, n);
    if |vs| % 2 == 1 {
      if IsMedian(vs, m) {
        RankUnique(vs, n, m, Median(vs));
      }
    } else {
      var o := Ordered(vs);
      SortedAtRank(vs, n - 1);
      if IsMedian(vs, m) {
        var low, high :| AreMiddle(vs, low, high) && m == (low + high) / 2.0;
        RankUnique(vs, n - 1, low, o[n - 1]);
        RankUnique(vs, n, high, o[n]);
      } else {
        assert AreMiddle(vs, o[n - 1], o[n]);
      }
    }
  }

  // ---------------------------------------------------------------- steps and rows

  /** The samples no more than two rows away. */
  function Near(vs: seq<real>, i: nat): (near: seq<real>)
    requires i < |vs|
    ensures near != []
  {
    vs[if i >= 2 then i - 2 else 0 .. if i + 3 <= |vs| then i + 3 else |vs|]
  }

  function Across(track: seq<Detection>): (xs: seq<real>)
    ensures |xs| == |track| && forall k :: 0 <= k < |xs| ==> xs[k] == track[k].x
  {
    seq(|track|, k requires 0 <= k < |track| => track[k].x)
  }

  function Along(track: seq<Detection>): (ys: seq<real>)
    ensures |ys| == |track| && forall k :: 0 <= k < |ys| ==> ys[k] == track[k].y
  {
    seq(|track|, k requires 0 <= k < |track| => track[k].y)
  }

  lemma SmoothedIs(vs: seq<real>, i: nat)
    requires i < |vs|
    ensures IsMedian(Near(vs, i), Smoothed(vs)[i])
  {
    hide IsMedian, Median;
    MedianIs(Near(vs, i), Median(Near(vs, i)));
  }

  /** The step into a row is the length, at 105 metres to 1216 pixels, of the move between the
      medians of the samples within two rows of the row before and of this one. */
  lemma StepIs(norm: Norm, track: seq<Detection>, i: nat, x0: real, x1: real, y0: real, y1: real)
    requires 0 < i < |track|
    requires IsMedian(Near(Across(track), i - 1), x0) && IsMedian(Near(Across(track), i), x1)
    requires IsMedian(Near(Along(track), i - 1), y0) && IsMedian(Near(Along(track), i), y1)
    ensures Step(norm, track, i) == norm((x1 - x0) * (105.0 / 1216.0), (y1 - y0) * (105.0 / 1216.0))
  {
    hide IsMedian, Near, Smoothed, Median;
    var xs, ys := Across(track), Along(track);
    forall k | i - 1 <= k <= i
      ensures IsMedian(Near(xs, k), Smoothed(xs)[k]) && IsMedian(Near(ys, k), Smoothed(ys)[k])
    {
      SmoothedIs(xs, k);
      SmoothedIs(ys, k);
    }
    OneMedian(Near(xs, i - 1), x0, Smoothed(xs)[i - 1]);
    OneMedian(Near(xs, i), x1, Smoothed(xs)[i]);
    OneMedian(Near(ys, i - 1), y0, Smoothed(ys)[i - 1]);
    OneMedian(Near(ys, i), y1, Smoothed(ys)[i]);
    assert seq(|track|, k requires 0 <= k < |track| => track[k].x) == xs;
    assert seq(|track|, k requires 0 <= k < |track| => track[k].y) == ys;
  }

  lemma OneMedian(vs: seq<real>, m: real, n: real)
    requires vs != [] && IsMedian(vs, m) && IsMedian(vs, n)
    ensures m == n
  {
    MedianIs(vs, m);
    MedianIs(vs, n);
  }

  /** A row after a gap of 0.05 to 3 seconds covers its whole step, or what 12 m/s allow if that is
      less, at the speed that is; the first row, and a row after any other gap, has neither. */
  lemma RowIs(norm: Norm, track: seq<Detection>, i: nat)
    requires IsLength(norm) && i < |track|
    ensures var row := Kinematics(norm, track)[i];
            && row.time == track[i].time
            && (i == 0 ==> row.speed == 0.0 && row.distance == 0.0)
            && (i > 0 ==>
                  var dt, step := track[i].time - track[i - 1].time, Step(norm, track, i);
                  if 0.05 <= dt <= 3.0 then
                    && row.distance == (if step <= 12.0 * dt then step else 12.0 * dt)
                    && row.distance == row.speed * dt
                  else row.speed == 0.0 && row.distance == 0.0)
  {
    hide Step;
    if i > 0 {
      var dt, step := track[i].time - track[i - 1].time, Step(norm, track, i);
      StepIsLength(norm, track, i);
      if MIN_GAP <= dt <= MAX_GAP {
        SpeedTimesGap(step, dt);
      }
    }
  }

  lemma SpeedTimesGap(step: real, dt: real)
    requires step >= 0.0 && dt > 0.0
    ensures Clip(step / dt, 0.0, 12.0) * dt == if step <= 12.0 * dt then step else 12.0 * dt
  {
    var raw := step / dt;
    assert raw * dt == step;
    if raw > 12.0 {
      assert (raw - 12.0) * dt > 0.0;
    } else {
      assert (12.0 - raw) * dt >= 0.0;
    }
  }

  /** A row loses none of its step: its gap is a usable one and 12 m/s are enough, or it stood still. */
  predicate KeepsStep(norm: Norm, track: seq<Detection>, k: nat)
    requires 0 < k < |track|
  {
    var dt, step := track[k].time - track[k - 1].time, Step(norm, track, k);
    step == 0.0 || (0.05 <= dt <= 3.0 && step <= 12.0 * dt)
  }

  lemma RowLoses(norm: Norm, track: seq<Detection>, k: nat)
    requires IsLength(norm) && 0 < k < |track|
    ensures Kinematics(norm, track)[k].distance <= Step(norm, track, k)
    ensures Kinematics(norm, track)[k].distance == Step(norm, track, k) <==> KeepsStep(norm, track, k)
  {
    hide Step, Row, Kinematics;
    RowIs(norm, track, k);
    StepIsLength(norm, track, k);
  }

  /** The distance over a window is the length of the smoothed path exactly when no row of it loses
      any of its step to a bad gap or to the speed cap. */
  lemma {:induction false} DistanceIsPath(norm: Norm, track: seq<Detection>, i: nat, j: nat)
    requires IsLength(norm) && i <= j < |track|
    ensures var walked := DistanceSum(Kinematics(norm, track)[i + 1..j + 1]);
            && walked <= PathLength(norm, track, i, j)
            && (walked == PathLength(norm, track, i, j) <==> forall k :: i < k <= j ==> KeepsStep(norm, track, k))
    decreases j - i
  {
    hide Step, Row, KeepsStep;
    var all := Kinematics(norm, track);
    if i < j {
      DistanceIsPath(norm, track, i, j - 1);
      RowLoses(norm, track, j);
      var rows := all[i + 1..j + 1];
      assert rows[..|rows| - 1] == all[i + 1..j] && rows[|rows| - 1] == all[j];
    }
  }

  // ---------------------------------------------------------------- sprints

  /** From row `i` to row `e` the player keeps at 5.5 m/s or more, up to a first slower row or the end
      of the track, and that takes a second at least. */
  predicate SprintTo(track: seq<Sample>, i: nat, e: nat)
    requires i < |track|
  {
    && i <= e < |track| && (forall k :: i <= k < e ==> track[k].speed >= 5.5)
    && (track[e].speed < 5.5 || e == |track| - 1)
    && track[e].time - track[i].time >= 1.0
  }

  /** A run at 5.5 m/s or more begins at row `i` and lasts a second at least. */
  ghost predicate StartsSprint(track: seq<Sample>, i: nat)
    requires i < |track|
  {
    track[i].speed >= 5.5 && (i == 0 || track[i - 1].speed < 5.5) && exists e :: SprintTo(track, i, e)
  }

  lemma SprintIs(track: seq<Sample>, i: nat)
    requires i < |track|
    ensures IsSprint(track, i) <==> StartsSprint(track, i)
  {
    if track[i].speed >= 5.5 {
      var j := SlowFrom(track, i);
      var end := if j < |track| then j else |track| - 1;
      if exists e :: SprintTo(track, i, e) {
        var e: nat :| SprintTo(track, i, e);
        SlowIs(track, i, if track[e].speed < 5.5 then e else e + 1);
      }
      if IsSprint(track, i) {
        assert forall k :: i <= k < end ==> Fast(track[k]);
        assert SprintTo(track, i, end);
      }
    }
  }

  /** The sprint count is the number of rows where such a run begins. */
  lemma SprintsAre(track: seq<Sample>)
    ensures Sprints(track) == |(set i: nat | i < |track| && StartsSprint(track, i))|
  {
    hide IsSprint, StartsSprint;
    forall i: nat | i < |track| ensures IsSprint(track, i) <==> StartsSprint(track, i) {
      SprintIs(track, i);
    }
    assert SprintsFrom(track, 0) == set i: nat | i < |track| && StartsSprint(track, i);
  }

  // ---------------------------------------------------------------- block records

  /** A block is fifteen minutes, counted from zero. */
  lemma BlockSpan(x: Sample)
    ensures BlockOf(x) as real * 900.0 <= x.time < (BlockOf(x) as real + 1.0) * 900.0
  {
    var q := x.time / 900.0;
    assert q * 900.0 == x.time;
    assert q.Floor as real <= q < q.Floor as real + 1.0;
  }

  /** Each record of a track, field by field, against the rows of its block. */
  lemma RecordIs(track: seq<Sample>, boundary: real, g: nat)
    requires Sorted(track) && g < |Blocks(track)|
    ensures |RecordsOf(track, boundary)| == |Blocks(track)| && Blocks(track)[g] != []
    ensures var (r, group) := (RecordsOf(track, boundary)[g], Blocks(track)[g]);
            && (forall x :: x in group ==> r.block as real * 900.0 <= x.time < (r.block as real + 1.0) * 900.0)
            && r.half == (if group[0].time < boundary then 0 else 1)
            && r.distance == DistanceSum(group)
            && r.meanSpeed * |group| as real == SpeedSum(group)
            && (forall x :: x in group ==> x.speed <= r.peakSpeed) && (exists x :: x in group && x.speed == r.peakSpeed)
            && r.sprints == Sprints(group)
            && r.activeFrames == |group|
            && r.activeTime == group[|group| - 1].time - group[0].time
  {
    hide Blocks, Sorted, DistanceSum, SpeedSum, Sprints, PeakSpeed, BlockOf;
    BlocksPartition(track);
    var group := Blocks(track)[g];
    forall x | x in group
      ensures BlockOf(group[0]) as real * 900.0 <= x.time < (BlockOf(group[0]) as real + 1.0) * 900.0
    {
      BlockSpan(x);
    }
    var peak := PeakSpeed(group);
    assert exists x :: x in group && x.speed == peak by {
      var i :| 0 <= i < |group| && group[i].speed == peak;
      assert group[i] in group;
    }
    MeanTimes(SpeedSum(group), |group| as real);
  }

  lemma MeanTimes(s: real, n: real)
    requires n > 0.0
    ensures (s / n) * n == s
  {
  }
}
