/** `pipeline/02_stats.py` over exact reals: sprints, capped kinematics and per-block totals. */
module Stats {

  const SPRINT_SPEED := 5.5
  const MIN_SPRINT_DURATION := 1.0
  const MAX_SPEED := 12.0
  const MIN_GAP := 0.05
  const MAX_GAP := 3.0
  const METRES_PER_PIXEL := 105.0 / 1216.0
  const BLOCK_SECONDS := 900.0
  const SMOOTH_REACH := 2               // two samples either side: a window of five

  /** One row of a player's track: time, speed and distance covered since the row before. */
  datatype Sample = Sample(time: real, speed: real, distance: real)

  predicate Fast(x: Sample) {
    x.speed >= SPRINT_SPEED
  }

  predicate Sorted(track: seq<Sample>) {
    forall i, j :: 0 <= i < j < |track| ==> track[i].time <= track[j].time
  }

  // ---------------------------------------------------------------- sprints, declaratively

  /** The first slower sample from `i` on, or the end of the track. */
  function SlowFrom(track: seq<Sample>, i: nat): (j: nat)
    requires i <= |track|
    ensures i <= j <= |track| && (forall k :: i <= k < j ==> Fast(track[k])) && (j < |track| ==> !Fast(track[j]))
    decreases |track| - i
  {
    if i == |track| || !Fast(track[i]) then i else SlowFrom(track, i + 1)
  }

  /** When a run of fast samples that includes `i` is over: at the first slower one, or the last. */
  function EndTime(track: seq<Sample>, i: nat): real
    requires i < |track|
  {
    var j := SlowFrom(track, i);
    if j < |track| then track[j].time else track[|track| - 1].time
  }

  /** A maximal at-or-above-threshold interval starts at `i` and lasts long enough. */
  predicate IsSprint(track: seq<Sample>, i: nat)
    requires i < |track|
  {
    && Fast(track[i]) && (i > 0 ==> !Fast(track[i - 1]))
    && EndTime(track, i) - track[i].time >= MIN_SPRINT_DURATION
  }

  ghost function SprintsFrom(track: seq<Sample>, k: nat): set<nat>
    requires k <= |track|
  {
    set i: nat | k <= i < |track| && IsSprint(track, i)
  }

  ghost function Sprints(track: seq<Sample>): nat {
    |SprintsFrom(track, 0)|
  }

  function One(b: bool): nat {
    if b then 1 else 0
  }

  /** The long-enough interval starting at `i`, however it began. */
  predicate Long(track: seq<Sample>, i: nat)
    requires i < |track|
  {
    EndTime(track, i) - track[i].time >= MIN_SPRINT_DURATION
  }

  lemma SprintsStep(track: seq<Sample>, k: nat)
    requires k < |track|
    ensures |SprintsFrom(track, k)| == |SprintsFrom(track, k + 1)| + One(IsSprint(track, k))
  {
    assert SprintsFrom(track, k)
        == if IsSprint(track, k) then SprintsFrom(track, k + 1) + {k} else SprintsFrom(track, k + 1);
    assert k !in SprintsFrom(track, k + 1);
  }

  lemma {:induction false} SlowIs(track: seq<Sample>, i: nat, j: nat)
    requires i <= j <= |track| && (forall k :: i <= k < j ==> Fast(track[k])) && (j < |track| ==> !Fast(track[j]))
    ensures SlowFrom(track, i) == j
    decreases j - i
  {
    if i < j {
      SlowIs(track, i + 1, j);
    }
  }

  lemma SlowShared(track: seq<Sample>, i: nat, k: nat)
    requires i <= k <= |track| && forall j :: i <= j < k ==> Fast(track[j])
    ensures SlowFrom(track, i) == SlowFrom(track, k)
  {
    SlowIs(track, i, SlowFrom(track, k));
  }

  /** `count_sprints`: the loop counts exactly the maximal long-enough intervals. */
  method CountSprints(track: seq<Sample>) returns (count: nat)
    ensures count == Sprints(track)
  {
    var inSprint, sprintStart := false, 0.0;
    ghost var from := 0;
    count := 0;
    for k := 0 to |track|
      invariant inSprint ==> from < k && sprintStart == track[from].time && (from > 0 ==> !Fast(track[from - 1]))
      invariant inSprint ==> forall j :: from <= j < k ==> Fast(track[j])
      invariant !inSprint && k > 0 ==> !Fast(track[k - 1])
      invariant Sprints(track) == count + |SprintsFrom(track, k)| + One(inSprint && Long(track, from))
    {
      SprintsStep(track, k);
      var t, s := track[k].time, track[k].speed;
      if !inSprint && s >= SPRINT_SPEED {
        inSprint, sprintStart := true, t;
        from := k;
      } else if inSprint && s < SPRINT_SPEED {
        SlowShared(track, from, k);
        if t - sprintStart >= MIN_SPRINT_DURATION {
          count := count + 1;
        }
        inSprint := false;
      }
    }
    assert SprintsFrom(track, |track|) == {};
    if inSprint {
      SlowShared(track, from, |track|);
      if track[|track| - 1].time - sprintStart >= MIN_SPRINT_DURATION {
        count := count + 1;
      }
    }
  }

  // ---------------------------------------------------------------- cutting a track

  /** Both parts of a cut, and the whole, from the point of view of one interval start. */
  lemma SprintLeft(a: seq<Sample>, b: seq<Sample>, i: nat)
    requires i < |a| && SlowFrom(a, i) < |a|
    ensures SlowFrom(a + b, i) == SlowFrom(a, i)
    ensures IsSprint(a + b, i) <==> IsSprint(a, i)
  {
    var j := SlowFrom(a, i);
    var whole := a + b;
    assert !Fast(whole[j]) && forall k :: i <= k < j ==> whole[k] == a[k];
    SlowIs(whole, i, j);
  }

  lemma SprintRight(a: seq<Sample>, b: seq<Sample>, i: nat)
    requires i < |b| && (i == 0 ==> a == [] || !Fast(a[|a| - 1]))
    ensures IsSprint(a + b, |a| + i) <==> IsSprint(b, i)
  {
    var j := SlowFrom(b, i);
    var whole := a + b;
    assert forall k :: i <= k < j ==> whole[|a| + k] == b[k];
    SlowIs(whole, |a| + i, |a| + j);
  }

  /** The start of the interval open at the end of `a`, if its last sample is fast. */
  function LastRun(a: seq<Sample>, k: nat): (i: nat)
    requires k <= |a|
    ensures i <= k && (forall j :: i <= j < k ==> Fast(a[j])) && (i > 0 ==> !Fast(a[i - 1]))
  {
    if k == 0 || !Fast(a[k - 1]) then k else LastRun(a, k - 1)
  }

  lemma {:induction false} SplitCounts(a: seq<Sample>, b: seq<Sample>, k: nat)
    requires |a| <= k <= |a| + |b| && (k == |a| ==> a == [] || b == [] || !Fast(a[|a| - 1]))
    ensures |SprintsFrom(a + b, k)| == |SprintsFrom(b, k - |a|)|
    decreases |a| + |b| - k
  {
    if k == |a| + |b| {
      assert SprintsFrom(a + b, k) == {} && SprintsFrom(b, k - |a|) == {};
    } else {
      SplitCounts(a, b, k + 1);
      SprintsStep(a + b, k);
      SprintsStep(b, k - |a|);
      SprintRight(a, b, k - |a|);
    }
  }

  ghost function SprintsBelow(track: seq<Sample>, k: nat): set<nat>
    requires k <= |track|
  {
    set i: nat | i < k && IsSprint(track, i)
  }

  lemma CountsSplit(track: seq<Sample>, k: nat)
    requires k <= |track|
    ensures Sprints(track) == |SprintsBelow(track, k)| + |SprintsFrom(track, k)|
  {
    assert SprintsFrom(track, 0) == SprintsBelow(track, k) + SprintsFrom(track, k);
    assert SprintsBelow(track, k) !! SprintsFrom(track, k);
  }

  /** Only the interval open at the cut can count differently on its two sides. */
  lemma BelowShared(a: seq<Sample>, b: seq<Sample>, r: nat)
    requires r <= |a| && (r > 0 ==> !Fast(a[r - 1]))
    ensures SprintsBelow(a + b, r) == SprintsBelow(a, r)
  {
    forall i: nat | i < r ensures IsSprint(a + b, i) <==> IsSprint(a, i) {
      assert !Fast(a[r - 1]);
      assert SlowFrom(a, i) <= r - 1;
      SprintLeft(a, b, i);
    }
  }

  lemma {:induction false} OnlyStarts(track: seq<Sample>, r: nat, k: nat)
    requires r < k <= |track| && forall j :: r <= j < k ==> Fast(track[j])
    ensures |SprintsFrom(track, r)| == One(IsSprint(track, r)) + |SprintsFrom(track, k)|
    decreases k
  {
    SprintsStep(track, k - 1);
    if r < k - 1 {
      OnlyStarts(track, r, k - 1);
      assert !IsSprint(track, k - 1);
    }
  }

  /** A run that goes on past the cut lasts at least as long as either of its parts. */
  lemma MergedLasts(a: seq<Sample>, b: seq<Sample>, r: nat)
    requires Sorted(a + b) && r < |a| && b != [] && (forall j :: r <= j < |a| ==> Fast(a[j])) && (r > 0 ==> !Fast(a[r - 1]))
    ensures IsSprint(a, r) ==> IsSprint(a + b, r)
    ensures Fast(b[0]) && IsSprint(b, 0) ==> IsSprint(a + b, r)
  {
    var whole := a + b;
    var j := SlowFrom(b, 0);
    SlowIs(a, r, |a|);
    assert forall k :: 0 <= k < j ==> whole[|a| + k] == b[k];
    SlowIs(whole, r, |a| + j);
    assert whole[r].time <= whole[|a|].time && whole[|a| - 1].time <= whole[|a|].time;
    assert j < |b| ==> whole[|a| + j] == b[j] && whole[|a|].time <= b[j].time;
    assert whole[|whole| - 1] == b[|b| - 1] && whole[|a|].time <= b[|b| - 1].time;
  }

  /** Cutting a time-sorted track in two changes its sprint count by at most one. */
  lemma CutChangesByOne(a: seq<Sample>, b: seq<Sample>)
    requires Sorted(a + b)
    ensures Sprints(a) + Sprints(b) - 1 <= Sprints(a + b) <= Sprints(a) + Sprints(b) + 1
  {
    var r := LastRun(a, |a|);
    var whole := a + b;
    CountsSplit(a, r);
    CountsSplit(whole, r);
    BelowShared(a, b, r);
    if r == |a| || b == [] {
      SplitCounts(a, b, |a|);
      if r < |a| {
        assert whole == a;
      }
    } else {
      CutInsideRun(a, b, r);
    }
  }

  lemma CutInsideRun(a: seq<Sample>, b: seq<Sample>, r: nat)
    requires Sorted(a + b) && r < |a| && b != [] && (forall j :: r <= j < |a| ==> Fast(a[j])) && (r > 0 ==> !Fast(a[r - 1]))
    ensures |SprintsFrom(a, r)| + Sprints(b) - 1 <= |SprintsFrom(a + b, r)| <= |SprintsFrom(a, r)| + Sprints(b) + 1
  {
    hide Sorted, EndTime;
    var whole := a + b;
    OnlyStarts(a, r, |a|);
    assert SprintsFrom(a, |a|) == {};
    OnlyStarts(whole, r, |a|);
    MergedLasts(a, b, r);
    SplitCounts(a, b, |a| + 1);
    SprintsStep(whole, |a|);
    SprintsStep(b, 0);
    assert !IsSprint(whole, |a|);
  }

  // ---------------------------------------------------------------- blocks

  function Concat(blocks: seq<seq<Sample>>): seq<Sample> {
    if blocks == [] then [] else blocks[0] + Concat(blocks[1..])
  }

  ghost function SprintSum(blocks: seq<seq<Sample>>): nat {
    if blocks == [] then 0 else Sprints(blocks[0]) + SprintSum(blocks[1..])
  }

  /** A player's total and the sum of the block counts differ by at most one per cut. */
  lemma {:induction false} BlockCountsNearTotal(blocks: seq<seq<Sample>>)
    requires blocks != [] && Sorted(Concat(blocks))
    ensures SprintSum(blocks) - (|blocks| - 1) <= Sprints(Concat(blocks)) <= SprintSum(blocks) + (|blocks| - 1)
  {
    var rest := Concat(blocks[1..]);
    assert forall i :: 0 <= i < |rest| ==> rest[i] == Concat(blocks)[|blocks[0]| + i];
    if |blocks| == 1 {
      assert Concat(blocks) == blocks[0];
    } else {
      BlockCountsNearTotal(blocks[1..]);
      CutChangesByOne(blocks[0], rest);
    }
  }

  function BlockOf(x: Sample): int {
    (x.time / BLOCK_SECONDS).Floor
  }

  /** One past the end of the run of rows in the same block as row `i`. */
  function BlockEnd(track: seq<Sample>, i: nat, j: nat): (e: nat)
    requires i < j <= |track| && forall k :: i <= k < j ==> BlockOf(track[k]) == BlockOf(track[i])
    ensures j <= e <= |track| && forall k :: i <= k < e ==> BlockOf(track[k]) == BlockOf(track[i])
    ensures e < |track| ==> BlockOf(track[e]) != BlockOf(track[i])
    decreases |track| - j
  {
    if j < |track| && BlockOf(track[j]) == BlockOf(track[i]) then BlockEnd(track, i, j + 1) else j
  }

  /** `groupby("block")` on a time-sorted track. */
  function Blocks(track: seq<Sample>): seq<seq<Sample>>
    decreases |track|
  {
    if track == [] then []
    else
      var e := BlockEnd(track, 0, 1);
      [track[..e]] + Blocks(track[e..])
  }

  lemma {:induction false} BlocksConcat(track: seq<Sample>)
    ensures Concat(Blocks(track)) == track
    decreases |track|
  {
    hide BlockOf;
    if track != [] {
      var e := BlockEnd(track, 0, 1);
      var first, rest := track[..e], track[e..];
      BlocksConcat(rest);
      var groups := Blocks(track);
      assert groups == [first] + Blocks(rest);
      assert groups[0] == first && groups[1..] == Blocks(rest);
      assert Concat(groups) == first + Concat(groups[1..]);
      assert first + rest == track;
    }
  }

  /** The first group starts where the track does, and each group is of one block. */
  lemma {:induction false} GroupsUniform(track: seq<Sample>, g: nat)
    requires g < |Blocks(track)|
    ensures Blocks(track)[g] != [] && (g == 0 ==> Blocks(track)[0][0] == track[0])
    ensures forall x :: x in Blocks(track)[g] ==> BlockOf(x) == BlockOf(Blocks(track)[g][0])
    decreases |track|
  {
    hide BlockOf;
    var e := BlockEnd(track, 0, 1);
    if g > 0 {
      GroupsUniform(track[e..], g - 1);
      assert Blocks(track)[g] == Blocks(track[e..])[g - 1];
    }
  }

  lemma {:induction false} GroupsRise(track: seq<Sample>, g: nat, h: nat)
    requires Sorted(track) && g < h < |Blocks(track)|
    ensures Blocks(track)[g] != [] && Blocks(track)[h] != []
    ensures BlockOf(Blocks(track)[g][0]) < BlockOf(Blocks(track)[h][0])
    decreases |track|
  {
    hide BlockOf;
    var e := BlockEnd(track, 0, 1);
    var rest := track[e..];
    assert forall k :: 0 < k < |Blocks(track)| ==> Blocks(track)[k] == Blocks(rest)[k - 1];
    GroupsUniform(track, g);
    GroupsUniform(track, h);
    if g > 0 {
      GroupsRise(rest, g - 1, h - 1);
    } else {
      GroupsUniform(rest, 0);
      BlockMonotone(track[0], track[e]);
      if h > 1 {
        GroupsRise(rest, 0, h - 1);
      }
    }
  }

  /** Grouping loses nothing: the groups in order are the track, each is all the rows of its block,
      and no block comes twice. */
  lemma BlocksPartition(track: seq<Sample>)
    requires Sorted(track)
    ensures Concat(Blocks(track)) == track
    ensures forall g :: 0 <= g < |Blocks(track)| ==>
              Blocks(track)[g] != [] && forall x :: x in Blocks(track)[g] ==> BlockOf(x) == BlockOf(Blocks(track)[g][0])
    ensures forall g, h :: 0 <= g < h < |Blocks(track)| ==> BlockOf(Blocks(track)[g][0]) < BlockOf(Blocks(track)[h][0])
  {
    hide BlockOf, Blocks, Sorted;
    BlocksConcat(track);
    var groups := Blocks(track);
    forall g | 0 <= g < |groups|
      ensures groups[g] != [] && forall x :: x in groups[g] ==> BlockOf(x) == BlockOf(groups[g][0])
    {
      GroupsUniform(track, g);
    }
    forall g, h | 0 <= g < h < |groups| ensures BlockOf(groups[g][0]) < BlockOf(groups[h][0]) {
      GroupsRise(track, g, h);
    }
  }

  lemma BlockMonotone(x: Sample, y: Sample)
    requires x.time <= y.time
    ensures BlockOf(x) <= BlockOf(y)
  {
    assert x.time / BLOCK_SECONDS <= y.time / BLOCK_SECONDS;
  }

  lemma BlockRises(x: Sample, y: Sample)
    requires BlockOf(x) < BlockOf(y)
    ensures x.time < y.time
  {
    if y.time <= x.time {
      BlockMonotone(y, x);
    }
  }

  // ---------------------------------------------------------------- kinematics

  /** One detection of a player: time and box centre in pixels. */
  datatype Detection = Detection(time: real, x: real, y: real)

  function Insert(sorted: seq<real>, v: real): (r: seq<real>)
    ensures |r| == |sorted| + 1
  {
    if sorted == [] || v <= sorted[0] then [v] + sorted else [sorted[0]] + Insert(sorted[1..], v)
  }

  function Ordered(vs: seq<real>): (r: seq<real>)
    ensures |r| == |vs|
  {
    if vs == [] then [] else Insert(Ordered(vs[1..]), vs[0])
  }

  /** The middle value, or the mean of the two middle ones. */
  function Median(vs: seq<real>): real
    requires vs != []
  {
    var o := Ordered(vs);
    if |o| % 2 == 1 then o[|o| / 2] else (o[|o| / 2 - 1] + o[|o| / 2]) / 2.0
  }

  /** The centred window, cut off at the ends of the track. */
  function Window(vs: seq<real>, i: nat): (w: seq<real>)
    requires i < |vs|
    ensures w != []
  {
    vs[if i < SMOOTH_REACH then 0 else i - SMOOTH_REACH .. if i + SMOOTH_REACH < |vs| then i + SMOOTH_REACH + 1 else |vs|]
  }

  function Smoothed(vs: seq<real>): (r: seq<real>)
    ensures |r| == |vs|
  {
    seq(|vs|, i requires 0 <= i < |vs| => Median(Window(vs, i)))
  }

  function Clip(v: real, low: real, high: real): real {
    if v < low then low else if v > high then high else v
  }

  /** Straight-line length of a displacement in metres; the square root is not modelled. */
  type Norm = (real, real) -> real

  ghost predicate IsLength(norm: Norm) {
    forall dx, dy :: norm(dx, dy) >= 0.0
  }

  /** Length in metres of the smoothed step into row `i`. */
  function Step(norm: Norm, track: seq<Detection>, i: nat): real
    requires 0 < i < |track|
  {
    var xs := Smoothed(seq(|track|, k requires 0 <= k < |track| => track[k].x));
    var ys := Smoothed(seq(|track|, k requires 0 <= k < |track| => track[k].y));
    norm((xs[i] - xs[i - 1]) * METRES_PER_PIXEL, (ys[i] - ys[i - 1]) * METRES_PER_PIXEL)
  }

  function Row(norm: Norm, track: seq<Detection>, i: nat): Sample
    requires i < |track|
  {
    if i == 0 then Sample(track[0].time, 0.0, 0.0)
    else
      var dt := track[i].time - track[i - 1].time;
      if MIN_GAP <= dt <= MAX_GAP then
        var speed := Clip(Step(norm, track, i) / dt, 0.0, MAX_SPEED);
        Sample(track[i].time, speed, speed * dt)
      else Sample(track[i].time, 0.0, 0.0)
  }

  /** `compute_kinematics`: speed and distance columns beside the times. */
  function Kinematics(norm: Norm, track: seq<Detection>): (r: seq<Sample>)
    ensures |r| == |track|
  {
    seq(|track|, i requires 0 <= i < |track| => Row(norm, track, i))
  }

  function DistanceSum(track: seq<Sample>): real {
    if track == [] then 0.0 else DistanceSum(track[..|track| - 1]) + track[|track| - 1].distance
  }

  /** Smoothed path length over the rows after `i` up to `j`. */
  function PathLength(norm: Norm, track: seq<Detection>, i: nat, j: nat): real
    requires i <= j < |track|
    decreases j - i
  {
    if i == j then 0.0 else PathLength(norm, track, i, j - 1) + Step(norm, track, j)
  }

  lemma RowBounds(norm: Norm, track: seq<Detection>, i: nat)
    requires IsLength(norm) && 0 < i < |track| && track[i - 1].time <= track[i].time
    ensures var row := Row(norm, track, i);
            && 0.0 <= row.speed <= MAX_SPEED
            && 0.0 <= row.distance <= MAX_SPEED * (track[i].time - track[i - 1].time)
            && row.distance <= Step(norm, track, i)
  {
    hide Step;
    var dt := track[i].time - track[i - 1].time;
    StepIsLength(norm, track, i);
    if MIN_GAP <= dt <= MAX_GAP {
      CappedStep(Step(norm, track, i), dt);
    }
  }

  lemma StepIsLength(norm: Norm, track: seq<Detection>, i: nat)
    requires IsLength(norm) && 0 < i < |track|
    ensures Step(norm, track, i) >= 0.0
  {
  }

  /** A step's capped speed over its time is no more than the step, or than the cap allows. */
  lemma CappedStep(step: real, dt: real)
    requires step >= 0.0 && dt > 0.0
    ensures var speed := Clip(step / dt, 0.0, MAX_SPEED);
            0.0 <= speed <= MAX_SPEED && 0.0 <= speed * dt <= MAX_SPEED * dt && speed * dt <= step
  {
    var raw := step / dt;
    assert raw * dt == step && raw >= 0.0;
    Scaled(Clip(raw, 0.0, MAX_SPEED), raw, dt);
    Scaled(Clip(raw, 0.0, MAX_SPEED), MAX_SPEED, dt);
    Scaled(0.0, Clip(raw, 0.0, MAX_SPEED), dt);
  }

  lemma Scaled(a: real, b: real, d: real)
    requires a <= b && d > 0.0
    ensures a * d <= b * d
  {
  }

  /** Over any window of a time-sorted track the distance is at most 12 m/s times the elapsed time,
      and at most the length of the smoothed path. */
  lemma {:induction false} DistanceBounded(norm: Norm, track: seq<Detection>, i: nat, j: nat)
    requires IsLength(norm) && i <= j < |track|
    requires forall a, b :: 0 <= a < b < |track| ==> track[a].time <= track[b].time
    ensures var rows := Kinematics(norm, track)[i + 1..j + 1];
            && 0.0 <= DistanceSum(rows) <= MAX_SPEED * (track[j].time - track[i].time)
            && DistanceSum(rows) <= PathLength(norm, track, i, j)
    decreases j - i
  {
    hide Row, Step;
    var all := Kinematics(norm, track);
    var rows := all[i + 1..j + 1];
    if i < j {
      DistanceBounded(norm, track, i, j - 1);
      RowBounds(norm, track, j);
      assert rows[..|rows| - 1] == all[i + 1..j];
      assert rows[|rows| - 1] == Row(norm, track, j);
    }
  }

  // ---------------------------------------------------------------- per-block records

  datatype BlockRecord = BlockRecord(
    block: int, half: nat, distance: real, meanSpeed: real, peakSpeed: real, sprints: nat, activeFrames: nat,
    activeTime: real)

  function RecordSum(records: seq<BlockRecord>): real {
    if records == [] then 0.0 else records[0].distance + RecordSum(records[1..])
  }

  function RecordSprints(records: seq<BlockRecord>): nat {
    if records == [] then 0 else records[0].sprints + RecordSprints(records[1..])
  }

  function RecordFrames(records: seq<BlockRecord>): nat {
    if records == [] then 0 else records[0].activeFrames + RecordFrames(records[1..])
  }

  function SpeedSum(track: seq<Sample>): real {
    if track == [] then 0.0 else SpeedSum(track[..|track| - 1]) + track[|track| - 1].speed
  }

  /** The greatest speed of the rows. */
  function PeakSpeed(track: seq<Sample>): (peak: real)
    requires track != []
    ensures exists i :: 0 <= i < |track| && track[i].speed == peak
    ensures forall i :: 0 <= i < |track| ==> track[i].speed <= peak
  {
    var last := track[|track| - 1].speed;
    if |track| == 1 then last
    else
      var init := track[..|track| - 1];
      var rest := PeakSpeed(init);
      if rest < last then last
      else
        assert exists i :: 0 <= i < |init| && init[i].speed == rest;
        rest
  }

  function HalfOf(x: Sample, boundary: real): nat {
    if x.time >= boundary then 1 else 0
  }

  ghost function RecordOf(group: seq<Sample>, boundary: real): BlockRecord
    requires group != []
  {
    BlockRecord(BlockOf(group[0]), HalfOf(group[0], boundary), DistanceSum(group), SpeedSum(group) / |group| as real,
                PeakSpeed(group), Sprints(group), |group|, group[|group| - 1].time - group[0].time)
  }

  /** The records a time-sorted track has: one per block, in order. */
  ghost function RecordsOf(track: seq<Sample>, boundary: real): (records: seq<BlockRecord>)
    requires Sorted(track)
    ensures |records| == |Blocks(track)|
  {
    BlocksPartition(track);
    seq(|Blocks(track)|, g requires 0 <= g < |Blocks(track)| => RecordOf(Blocks(track)[g], boundary))
  }

  lemma SingleHasNone(group: seq<Sample>)
    requires |group| == 1
    ensures Sprints(group) == 0
  {
    assert SprintsFrom(group, 0) == {};
  }

  lemma {:induction false} DistanceAppend(a: seq<Sample>, b: seq<Sample>)
    ensures DistanceSum(a + b) == DistanceSum(a) + DistanceSum(b)
  {
    if b == [] {
      assert a + b == a;
    } else {
      var init := b[..|b| - 1];
      assert (a + b)[..|a + b| - 1] == a + init;
      DistanceAppend(a, init);
    }
  }

  lemma {:induction false} RecordsAdd(groups: seq<seq<Sample>>, records: seq<BlockRecord>, boundary: real)
    requires |groups| == |records|
    requires forall g :: 0 <= g < |groups| ==> groups[g] != [] && records[g] == RecordOf(groups[g], boundary)
    ensures RecordSum(records) == DistanceSum(Concat(groups))
    ensures RecordSprints(records) == SprintSum(groups)
    ensures RecordFrames(records) == |Concat(groups)|
  {
    if groups != [] {
      RecordsAdd(groups[1..], records[1..], boundary);
      DistanceAppend(groups[0], Concat(groups[1..]));
    }
  }

  /** The per-block aggregation of one player's time-sorted rows: one record per block in order, no
      distance lost, and sprint counts within one per cut of the player's total. */
  method AggregateBlocks(track: seq<Sample>, boundary: real) returns (records: seq<BlockRecord>)
    requires Sorted(track)
    ensures records == RecordsOf(track, boundary)
    ensures forall g, h :: 0 <= g < h < |records| ==> records[g].block < records[h].block
    ensures RecordSum(records) == DistanceSum(track) && RecordFrames(records) == |track|
    ensures track != [] ==>
              RecordSprints(records) - (|records| - 1) <= Sprints(track) <= RecordSprints(records) + (|records| - 1)
  {
    hide BlockOf, DistanceSum, Sprints, Sorted, Blocks, SpeedSum, PeakSpeed;
    records := [];
    var groups := Blocks(track);
    BlocksPartition(track);
    for g := 0 to |groups|
      invariant |records| == g
      invariant forall k :: 0 <= k < g ==> records[k] == RecordOf(groups[k], boundary)
    {
      var group := groups[g];
      var sprints, activeTime := 0, 0.0;
      if |group| > 1 {
        sprints := CountSprints(group);
        activeTime := group[|group| - 1].time - group[0].time;
      } else {
        SingleHasNone(group);
      }
      records := records + [BlockRecord(BlockOf(group[0]), HalfOf(group[0], boundary), DistanceSum(group),
                                        SpeedSum(group) / |group| as real, PeakSpeed(group), sprints, |group|,
                                        activeTime)];
    }
    RecordsAdd(groups, records, boundary);
    if track != [] {
      assert groups == [] ==> Concat(groups) == [];
      BlockCountsNearTotal(groups);
    }
  }
}
