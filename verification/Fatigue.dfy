/** `pipeline/03_fatigue.py` over exact reals: the regression score and the half totals. */
module Fatigue {
  import Stats

  /** Mean speed of one fifteen-minute block; a timeline lists its blocks in increasing order. */
  datatype Point = Point(block: int, speed: real)

  type Timeline = seq<Point>

  predicate Increasing(tl: Timeline) {
    forall i, j :: 0 <= i < j < |tl| ==> tl[i].block < tl[j].block
  }

  function X(p: Point): real {
    p.block as real
  }

  /** A product, kept folded where only its algebra matters. */
  function Times(a: real, b: real): real {
    a * b
  }

  // ---------------------------------------------------------------- least squares

  /** Sum of x - mx. */
  function SumX(tl: Timeline, mx: real): real {
    if tl == [] then 0.0 else SumX(tl[..|tl| - 1], mx) + (X(tl[|tl| - 1]) - mx)
  }

  /** Sum of y - my. */
  function SumY(tl: Timeline, my: real): real {
    if tl == [] then 0.0 else SumY(tl[..|tl| - 1], my) + (tl[|tl| - 1].speed - my)
  }

  /** Sum of (x - mx)(y - my). */
  function Covariation(tl: Timeline, mx: real, my: real): real {
    if tl == [] then 0.0
    else Covariation(tl[..|tl| - 1], mx, my) + Times(X(tl[|tl| - 1]) - mx, tl[|tl| - 1].speed - my)
  }

  /** Sum of (x - mx) squared. */
  function Variation(tl: Timeline, mx: real): real {
    if tl == [] then 0.0 else Variation(tl[..|tl| - 1], mx) + Times(X(tl[|tl| - 1]) - mx, X(tl[|tl| - 1]) - mx)
  }

  function MeanX(tl: Timeline): real
    requires tl != []
  {
    SumX(tl, 0.0) / |tl| as real
  }

  function MeanY(tl: Timeline): real
    requires tl != []
  {
    SumY(tl, 0.0) / |tl| as real
  }

  /** The regression slope as `linregress` computes it, from centred sums. */
  function Slope(tl: Timeline): real
    requires tl != [] && Variation(tl, MeanX(tl)) != 0.0
  {
    Covariation(tl, MeanX(tl), MeanY(tl)) / Variation(tl, MeanX(tl))
  }

  predicate Constant(tl: Timeline) {
    forall i, j :: 0 <= i < j < |tl| ==> tl[i].speed == tl[j].speed
  }

  function Min(a: real, b: real): real {
    if a <= b then a else b
  }

  function Max(a: real, b: real): real {
    if a >= b then a else b
  }

  /** `speed_decay_score`: score and slope. */
  function SpeedDecayScore(tl: Timeline): (real, real)
    requires Increasing(tl)
  {
    if |tl| < 3 || Constant(tl) then (0.0, 0.0)
    else
      VariationPositive(tl);
      var slope := Slope(tl);
      (Min(25.0, Max(0.0, -slope / 0.10 * 25.0)), slope)
  }

  // ---------------------------------------------------------------- Chebyshev's sum

  /** Sum over the points of (x - x_i)(y - y_i). */
  function Against(tl: Timeline, p: Point): real {
    if tl == [] then 0.0
    else Against(tl[..|tl| - 1], p) + Times(X(p) - X(tl[|tl| - 1]), p.speed - tl[|tl| - 1].speed)
  }

  /** Sum over all pairs i < j of (x_j - x_i)(y_j - y_i). */
  function Pairs(tl: Timeline): real {
    if tl == [] then 0.0 else Pairs(tl[..|tl| - 1]) + Against(tl[..|tl| - 1], tl[|tl| - 1])
  }

  /** The timeline whose speeds are its block numbers. */
  function Identity(tl: Timeline): (r: Timeline)
    ensures |r| == |tl| && forall i :: 0 <= i < |tl| ==> r[i] == Point(tl[i].block, X(tl[i]))
  {
    seq(|tl|, i requires 0 <= i < |tl| => Point(tl[i].block, X(tl[i])))
  }

  /** Sum over all pairs i < j of (x_j - x_i) squared. */
  function Spread(tl: Timeline): real {
    Pairs(Identity(tl))
  }

  lemma OneMore(n: real, a: real, b: real, c: real, d: real, cov: real, sx: real, sy: real)
    ensures Times(Times(n, a), b) + cov - Times(a, sy) - Times(b, sx) + Times(a - c, b - d)
         == Times(Times(n + 1.0, a), b) + (cov + Times(c, d)) - Times(a, sy + d) - Times(b, sx + c)
  {
  }

  /** Centring anywhere shifts the last row of pairs by known sums. */
  lemma {:induction false} AgainstIs(tl: Timeline, p: Point, mx: real, my: real)
    ensures Against(tl, p) == Times(Times(|tl| as real, X(p) - mx), p.speed - my) + Covariation(tl, mx, my)
              - Times(X(p) - mx, SumY(tl, my)) - Times(p.speed - my, SumX(tl, mx))
  {
    if tl == [] {
      ZeroTimes(X(p) - mx, p.speed - my);
    } else {
      hide Times;
      var init, q := tl[..|tl| - 1], tl[|tl| - 1];
      AgainstIs(init, p, mx, my);
      OneMore(|init| as real, X(p) - mx, p.speed - my, X(q) - mx, q.speed - my, Covariation(init, mx, my),
              SumX(init, mx), SumY(init, my));
      assert (X(p) - mx) - (X(q) - mx) == X(p) - X(q) && (p.speed - my) - (q.speed - my) == p.speed - q.speed;
      assert (|tl| as real) == (|init| as real) + 1.0;
    }
  }

  lemma ZeroTimes(a: real, b: real)
    ensures Times(Times(0.0, a), b) == 0.0 && Times(a, 0.0) == 0.0 && Times(0.0, b) == 0.0 && Times(b, 0.0) == 0.0
  {
  }

  lemma AddPoint(n: real, cov: real, sx: real, sy: real, a: real, b: real)
    ensures (Times(n, cov) - Times(sx, sy)) + (Times(Times(n, a), b) + cov - Times(a, sy) - Times(b, sx))
         == Times(n + 1.0, cov + Times(a, b)) - Times(sx + a, sy + b)
  {
  }

  /** All pairs together are the centred sum times the number of points, less the product of the
      centred totals. */
  lemma {:induction false} PairsAre(tl: Timeline, mx: real, my: real)
    ensures Pairs(tl) == Times(|tl| as real, Covariation(tl, mx, my)) - Times(SumX(tl, mx), SumY(tl, my))
  {
    hide Times;
    if tl == [] {
      ZeroTimes(0.0, 0.0);
    } else {
      var init, p := tl[..|tl| - 1], tl[|tl| - 1];
      PairsAre(init, mx, my);
      AgainstIs(init, p, mx, my);
      AddPoint(|init| as real, Covariation(init, mx, my), SumX(init, mx), SumY(init, my), X(p) - mx, p.speed - my);
      assert (|tl| as real) == (|init| as real) + 1.0;
    }
  }

  lemma {:induction false} SumShift(tl: Timeline, m: real)
    ensures SumX(tl, m) == SumX(tl, 0.0) - (|tl| as real) * m
    ensures SumY(tl, m) == SumY(tl, 0.0) - (|tl| as real) * m
  {
    if tl != [] {
      SumShift(tl[..|tl| - 1], m);
      var k := |tl[..|tl| - 1]| as real;
      assert (|tl| as real) == k + 1.0;
      assert (k + 1.0) * m == k * m + m;
    }
  }

  lemma Quotient(s: real, n: real)
    requires n > 0.0
    ensures n * (s / n) == s && Times(s / n, n) == s
  {
  }

  /** The centred sums vanish at the means. */
  lemma MeansCentre(tl: Timeline)
    requires tl != []
    ensures SumX(tl, MeanX(tl)) == 0.0 && SumY(tl, MeanY(tl)) == 0.0
  {
    SumShift(tl, MeanX(tl));
    SumShift(tl, MeanY(tl));
    Quotient(SumX(tl, 0.0), |tl| as real);
    Quotient(SumY(tl, 0.0), |tl| as real);
  }

  /** Chebyshev's identity: n times the centred sum is the sum over pairs. */
  lemma CenteredIsPairs(tl: Timeline)
    requires tl != []
    ensures Times(|tl| as real, Covariation(tl, MeanX(tl), MeanY(tl))) == Pairs(tl)
  {
    hide Times, Pairs, Covariation, MeanX, MeanY;
    PairsAre(tl, MeanX(tl), MeanY(tl));
    MeansCentre(tl);
    ZeroTimes(0.0, 0.0);
  }

  lemma {:induction false} IdentitySums(tl: Timeline, mx: real)
    ensures SumX(Identity(tl), mx) == SumX(tl, mx) == SumY(Identity(tl), mx)
    ensures Covariation(Identity(tl), mx, mx) == Variation(tl, mx)
  {
    hide Times;
    if tl != [] {
      assert Identity(tl)[..|tl| - 1] == Identity(tl[..|tl| - 1]);
      IdentitySums(tl[..|tl| - 1], mx);
    }
  }

  lemma VariationIsSpread(tl: Timeline)
    requires tl != []
    ensures Times(|tl| as real, Variation(tl, MeanX(tl))) == Spread(tl)
  {
    hide Times, Pairs, Covariation, Variation, SumX, SumY;
    IdentitySums(tl, 0.0);
    IdentitySums(tl, MeanX(tl));
    CenteredIsPairs(Identity(tl));
  }

  // ---------------------------------------------------------------- signs

  /** Speeds never rise, or never fall, along the timeline. */
  predicate NeverRising(tl: Timeline) {
    forall i, j :: 0 <= i < j < |tl| ==> tl[i].speed >= tl[j].speed
  }

  predicate NeverFalling(tl: Timeline) {
    forall i, j :: 0 <= i < j < |tl| ==> tl[i].speed <= tl[j].speed
  }

  lemma TimesSign(a: real, b: real)
    requires a > 0.0
    ensures (Times(a, b) < 0.0 <==> b < 0.0) && (Times(a, b) > 0.0 <==> b > 0.0)
    ensures (Times(b, a) < 0.0 <==> b < 0.0) && (Times(b, a) > 0.0 <==> b > 0.0)
  {
  }

  /** Against a later point no slower than any: nothing negative, and something positive if one was
      slower. */
  lemma {:induction false} AgainstRises(tl: Timeline, p: Point)
    requires forall i :: 0 <= i < |tl| ==> tl[i].block < p.block && tl[i].speed <= p.speed
    ensures Against(tl, p) >= 0.0
    ensures (exists i :: 0 <= i < |tl| && tl[i].speed < p.speed) ==> Against(tl, p) > 0.0
  {
    hide Times;
    if tl != [] {
      AgainstRises(tl[..|tl| - 1], p);
      TimesSign(X(p) - X(tl[|tl| - 1]), p.speed - tl[|tl| - 1].speed);
    }
  }

  lemma {:induction false} PairsRise(tl: Timeline)
    requires Increasing(tl) && NeverFalling(tl)
    ensures Pairs(tl) >= 0.0 && (!Constant(tl) ==> Pairs(tl) > 0.0)
  {
    hide Against;
    if tl != [] {
      var init, p := tl[..|tl| - 1], tl[|tl| - 1];
      PairsRise(init);
      AgainstRises(init, p);
      if Constant(init) && !Constant(tl) {
        var i, j :| 0 <= i < j < |tl| && tl[i].speed != tl[j].speed;
        assert j == |tl| - 1 && init[i].speed < p.speed;
      }
    }
  }

  /** The timeline with every speed negated. */
  function Mirror(tl: Timeline): (r: Timeline)
    ensures |r| == |tl| && forall i :: 0 <= i < |tl| ==> r[i] == Point(tl[i].block, -tl[i].speed)
  {
    seq(|tl|, i requires 0 <= i < |tl| => Point(tl[i].block, -tl[i].speed))
  }

  lemma TimesMinus(a: real, b: real)
    ensures Times(a, -b) == -Times(a, b)
  {
  }

  lemma {:induction false} AgainstMirror(tl: Timeline, p: Point)
    ensures Against(Mirror(tl), Point(p.block, -p.speed)) == -Against(tl, p)
  {
    hide Times;
    if tl != [] {
      var q := tl[|tl| - 1];
      assert Mirror(tl)[..|tl| - 1] == Mirror(tl[..|tl| - 1]);
      AgainstMirror(tl[..|tl| - 1], p);
      TimesMinus(X(p) - X(q), p.speed - q.speed);
      assert -p.speed - -q.speed == -(p.speed - q.speed);
    }
  }

  lemma {:induction false} PairsMirror(tl: Timeline)
    ensures Pairs(Mirror(tl)) == -Pairs(tl)
  {
    hide Against;
    if tl != [] {
      assert Mirror(tl)[..|tl| - 1] == Mirror(tl[..|tl| - 1]);
      PairsMirror(tl[..|tl| - 1]);
      AgainstMirror(tl[..|tl| - 1], tl[|tl| - 1]);
    }
  }

  lemma PairsFall(tl: Timeline)
    requires Increasing(tl) && NeverRising(tl)
    ensures Pairs(tl) <= 0.0 && (!Constant(tl) ==> Pairs(tl) < 0.0)
  {
    hide Pairs;
    PairsMirror(tl);
    if !Constant(tl) {
      var i, j :| 0 <= i < j < |tl| && tl[i].speed != tl[j].speed;
      assert Mirror(tl)[i].speed != Mirror(tl)[j].speed;
    }
    PairsRise(Mirror(tl));
  }

  lemma SpreadPositive(tl: Timeline)
    requires Increasing(tl) && |tl| >= 2
    ensures Spread(tl) > 0.0
  {
    hide Pairs;
    var id := Identity(tl);
    assert id[0].speed != id[1].speed;
    PairsRise(id);
  }

  lemma VariationPositive(tl: Timeline)
    requires Increasing(tl) && |tl| >= 2
    ensures Variation(tl, MeanX(tl)) > 0.0
  {
    hide Times, Variation, Spread;
    VariationIsSpread(tl);
    SpreadPositive(tl);
    TimesSign(|tl| as real, Variation(tl, MeanX(tl)));
  }

  lemma TimesSwap(s: real, n: real, v: real)
    ensures Times(s, Times(n, v)) == Times(n, Times(s, v))
  {
  }

  /** The slope is the sum over pairs in units of the spread, so it has its sign. */
  lemma SlopeIsPairs(tl: Timeline)
    requires Increasing(tl) && |tl| >= 2
    ensures Variation(tl, MeanX(tl)) > 0.0 && Spread(tl) > 0.0
    ensures Times(Slope(tl), Spread(tl)) == Pairs(tl)
    ensures (Slope(tl) < 0.0 <==> Pairs(tl) < 0.0) && (Slope(tl) > 0.0 <==> Pairs(tl) > 0.0)
  {
    hide Times, Variation, Spread, Pairs, Covariation, MeanX, MeanY;
    VariationPositive(tl);
    SpreadPositive(tl);
    CenteredIsPairs(tl);
    VariationIsSpread(tl);
    Quotient(Covariation(tl, MeanX(tl), MeanY(tl)), Variation(tl, MeanX(tl)));
    TimesSwap(Slope(tl), |tl| as real, Variation(tl, MeanX(tl)));
    TimesSign(Spread(tl), Slope(tl));
  }

  /** Never-rising speeds have slope at most zero, strictly negative with a positive score unless
      they are constant; never-falling speeds score exactly zero. */
  lemma DecaySigns(tl: Timeline)
    requires Increasing(tl) && |tl| >= 3
    ensures var (score, slope) := SpeedDecayScore(tl);
            && 0.0 <= score <= 25.0
            && (NeverRising(tl) ==> slope <= 0.0 && (!Constant(tl) ==> slope < 0.0 && score > 0.0))
            && (NeverFalling(tl) ==> slope >= 0.0 && score == 0.0)
  {
    hide Times, Variation, Spread, Pairs, MeanX, Slope;
    SlopeIsPairs(tl);
    if NeverRising(tl) {
      PairsFall(tl);
    }
    if NeverFalling(tl) {
      PairsRise(tl);
    }
  }

  // ---------------------------------------------------------------- an exact decline

  /** Speeds on a straight line falling by `c` per block. */
  predicate Declines(tl: Timeline, c: real) {
    forall i, j :: 0 <= i < j < |tl| ==> tl[i].speed - tl[j].speed == Times(c, X(tl[j]) - X(tl[i]))
  }

  lemma LineStep(dx: real, dy: real, c: real)
    requires -dy == Times(c, dx)
    ensures Times(dx, dy) == -Times(c, Times(dx, dx))
  {
    assert dy == -(c * dx);
    assert dx * (c * dx) == c * (dx * dx);
  }

  lemma TimesSum(c: real, a: real, b: real)
    ensures Times(c, a + b) == Times(c, a) + Times(c, b)
  {
  }

  lemma {:induction false} AgainstLine(tl: Timeline, p: Point, c: real)
    requires forall i :: 0 <= i < |tl| ==> tl[i].speed - p.speed == Times(c, X(p) - X(tl[i]))
    ensures Against(tl, p) == -Times(c, Against(Identity(tl), Point(p.block, X(p))))
  {
    if tl == [] {
      ZeroTimes(c, c);
    } else {
      hide Times;
      var init, q, top := tl[..|tl| - 1], tl[|tl| - 1], Point(p.block, X(p));
      AgainstLine(init, p, c);
      assert Identity(tl)[..|tl| - 1] == Identity(init);
      var dx := X(p) - X(q);
      LineStep(dx, p.speed - q.speed, c);
      TimesSum(c, Against(Identity(init), top), Times(dx, dx));
      assert Identity(tl)[|tl| - 1] == Point(q.block, X(q));
    }
  }

  lemma {:induction false} PairsLine(tl: Timeline, c: real)
    requires Declines(tl, c)
    ensures Pairs(tl) == -Times(c, Spread(tl))
  {
    hide Times, Against;
    if tl == [] {
      ZeroTimes(c, c);
    } else {
      var init, p := tl[..|tl| - 1], tl[|tl| - 1];
      PairsLine(init, c);
      AgainstLine(init, p, c);
      assert Identity(tl)[..|tl| - 1] == Identity(init);
      assert Identity(tl)[|tl| - 1] == Point(p.block, X(p));
      TimesSum(c, Spread(init), Against(Identity(init), Point(p.block, X(p))));
    }
  }

  lemma SameFactor(a: real, c: real, d: real)
    requires d > 0.0 && Times(a, d) == -Times(c, d)
    ensures a == -c
  {
    assert (a + c) * d == 0.0;
  }

  /** A decline of exactly `c` per block scores min(25, 250 c). */
  lemma ExactDecline(tl: Timeline, c: real)
    requires Increasing(tl) && |tl| >= 3 && Declines(tl, c) && c >= 0.0
    ensures SpeedDecayScore(tl) == (Min(25.0, 250.0 * c), -c)
  {
    hide Times, Variation, Spread, Pairs, MeanX, Slope;
    if Constant(tl) {
      assert tl[0].speed - tl[1].speed == Times(c, X(tl[1]) - X(tl[0]));
      TimesSign(X(tl[1]) - X(tl[0]), c);
    } else {
      PairsLine(tl, c);
      SlopeIsPairs(tl);
      SameFactor(Slope(tl), c, Spread(tl));
    }
  }

  // ---------------------------------------------------------------- least squares, independently

  /** Squared distances of the speeds from the line with intercept `a` and slope `b`, summed. */
  function SquaredError(tl: Timeline, a: real, b: real): real {
    if tl == [] then 0.0
    else
      var p := tl[|tl| - 1];
      var miss := p.speed - (a + Times(b, X(p)));
      SquaredError(tl[..|tl| - 1], a, b) + Times(miss, miss)
  }

  /** Sum of (y - my) squared. */
  function VariationY(tl: Timeline, my: real): real {
    if tl == [] then 0.0 else VariationY(tl[..|tl| - 1], my) + Times(tl[|tl| - 1].speed - my, tl[|tl| - 1].speed - my)
  }

  /** The error around any centre, `c` being how far above the centre the line passes. */
  function Expanded(n: real, yy: real, xy: real, xx: real, sx: real, sy: real, b: real, c: real): real {
    yy - 2.0 * Times(b, xy) + Times(Times(b, b), xx) + Times(n, Times(c, c)) - 2.0 * Times(c, sy)
    + 2.0 * Times(Times(b, c), sx)
  }

  lemma MissSquared(dx: real, dy: real, b: real, c: real, miss: real)
    requires miss == dy - b * dx - c
    ensures Times(miss, miss) == Expanded(1.0, Times(dy, dy), Times(dx, dy), Times(dx, dx), dx, dy, b, c)
  {
    var l := b * dx;
    assert (dy - l - c) * (dy - l - c) == dy * dy + l * l + c * c - 2.0 * (l * dy) - 2.0 * (c * dy) + 2.0 * (l * c);
    assert l * l == (b * b) * (dx * dx);
    assert l * dy == b * (dx * dy);
    assert l * c == (b * c) * dx;
  }

  lemma ExpandedAdds(n: real, yy: real, xy: real, xx: real, sx: real, sy: real, yy': real, xy': real, xx': real,
                     sx': real, sy': real, b: real, c: real)
    ensures Expanded(n + 1.0, yy + yy', xy + xy', xx + xx', sx + sx', sy + sy', b, c)
         == Expanded(n, yy, xy, xx, sx, sy, b, c) + Expanded(1.0, yy', xy', xx', sx', sy', b, c)
  {
    hide Times;
    TimesSum(b, xy, xy');
    TimesSum(Times(b, b), xx, xx');
    TimesSum(c, sy, sy');
    TimesSum(Times(b, c), sx, sx');
    OneMoreTimes(n, Times(c, c));
  }

  lemma OneMoreTimes(n: real, v: real)
    ensures Times(n + 1.0, v) == Times(n, v) + Times(1.0, v)
  {
  }

  lemma MissAround(x: real, y: real, mx: real, my: real, a: real, b: real)
    ensures y - (a + Times(b, x)) == (y - my) - b * (x - mx) - (a + b * mx - my)
  {
    assert b * (x - mx) == b * x - b * mx;
  }

  /** What the last point adds to the error. */
  lemma ErrorStep(tl: Timeline, a: real, b: real, mx: real, my: real, dx: real, dy: real, c: real)
    requires tl != [] && dx == X(tl[|tl| - 1]) - mx && dy == tl[|tl| - 1].speed - my && c == a + b * mx - my
    ensures SquaredError(tl, a, b)
         == SquaredError(tl[..|tl| - 1], a, b)
            + Expanded(1.0, Times(dy, dy), Times(dx, dy), Times(dx, dx), dx, dy, b, c)
  {
    hide Times, Expanded;
    var p := tl[|tl| - 1];
    var miss := p.speed - (a + Times(b, X(p)));
    MissAround(X(p), p.speed, mx, my, a, b);
    MissSquared(dx, dy, b, c, miss);
  }

  lemma NoError(b: real, c: real)
    ensures Expanded(0.0, 0.0, 0.0, 0.0, 0.0, 0.0, b, c) == 0.0
  {
  }

  lemma {:induction false} ErrorIs(tl: Timeline, a: real, b: real, mx: real, my: real)
    ensures SquaredError(tl, a, b)
         == Expanded(|tl| as real, VariationY(tl, my), Covariation(tl, mx, my), Variation(tl, mx), SumX(tl, mx),
                     SumY(tl, my), b, a + b * mx - my)
  {
    hide Times, Expanded;
    var c := a + b * mx - my;
    if tl == [] {
      NoError(b, c);
    } else {
      var init, p := tl[..|tl| - 1], tl[|tl| - 1];
      var dx, dy := X(p) - mx, p.speed - my;
      ErrorIs(init, a, b, mx, my);
      ErrorStep(tl, a, b, mx, my, dx, dy, c);
      hide SquaredError;
      ExpandedAdds(|init| as real, VariationY(init, my), Covariation(init, mx, my), Variation(init, mx), SumX(init, mx),
                   SumY(init, my), Times(dy, dy), Times(dx, dy), Times(dx, dx), dx, dy, b, c);
      assert (|tl| as real) == (|init| as real) + 1.0;
    }
  }

  /** How much worse a line is than the one with slope `s`, once the covariation is `s` variations. */
  lemma Parabola(n: real, yy: real, xy: real, xx: real, s: real, b: real, c: real)
    requires n > 0.0 && xx > 0.0 && xy == Times(s, xx)
    ensures Expanded(n, yy, xy, xx, 0.0, 0.0, b, c)
         == Expanded(n, yy, xy, xx, 0.0, 0.0, s, 0.0) + Times(xx, Times(b - s, b - s)) + Times(n, Times(c, c))
  {
    var d := b - s;
    assert d * d == b * b - 2.0 * (b * s) + s * s;
    assert (d * d) * xx == (b * b) * xx - 2.0 * (b * (s * xx)) + s * (s * xx);
    assert (s * s) * xx == s * (s * xx);
  }

  lemma SquareSign(x: real, d: real)
    requires x > 0.0
    ensures Times(x, Times(d, d)) >= 0.0 && (d != 0.0 ==> Times(x, Times(d, d)) > 0.0)
  {
    if d > 0.0 {
      TimesSign(d, d);
    } else if d < 0.0 {
      TimesSign(-d, -d);
      assert Times(-d, -d) == Times(d, d);
    }
    TimesSign(x, Times(d, d));
  }

  /** Where the line through the means with the timeline's slope meets block zero. */
  function Intercept(tl: Timeline): real
    requires tl != [] && Variation(tl, MeanX(tl)) != 0.0
  {
    MeanY(tl) - Slope(tl) * MeanX(tl)
  }

  /** The slope is the least-squares one: the line through the means with that slope misses the
      speeds by less than every other line. */
  lemma SlopeFitsBest(tl: Timeline, a: real, b: real)
    requires Increasing(tl) && |tl| >= 2
    ensures Variation(tl, MeanX(tl)) > 0.0
    ensures SquaredError(tl, Intercept(tl), Slope(tl)) <= SquaredError(tl, a, b)
    ensures b != Slope(tl) ==> SquaredError(tl, Intercept(tl), Slope(tl)) < SquaredError(tl, a, b)
  {
    hide Times, Variation, Covariation, VariationY, SumX, SumY, MeanX, MeanY, SquaredError;
    VariationPositive(tl);
    MeansCentre(tl);
    var mx, my, s := MeanX(tl), MeanY(tl), Slope(tl);
    var c := a + b * mx - my;
    var best := Intercept(tl);
    assert best + s * mx - my == 0.0;
    var n, yy, xy, xx := |tl| as real, VariationY(tl, my), Covariation(tl, mx, my), Variation(tl, mx);
    Quotient(xy, xx);
    ErrorIs(tl, a, b, mx, my);
    ErrorIs(tl, best, s, mx, my);
    hide Expanded;
    Parabola(n, yy, xy, xx, s, b, c);
    SquareSign(xx, b - s);
    SquareSign(n, c);
  }

  /** No line misses the timeline's speeds by less than some line of slope `s`, and none of another
      slope misses them by as little. */
  ghost predicate BestSlope(tl: Timeline, s: real) {
    exists a :: forall a', b ::
      && SquaredError(tl, a, s) <= SquaredError(tl, a', b)
      && (b != s ==> SquaredError(tl, a, s) < SquaredError(tl, a', b))
  }

  /** `speed_decay_score` in full: with fewer than three blocks, or one speed throughout, there is no
      score; otherwise the slope is the one of least squared error, and the score is 250 points per
      unit of decline, kept between 0 and 25. */
  lemma ScoreIs(tl: Timeline)
    requires Increasing(tl)
    ensures |tl| < 3 || (forall p, q :: p in tl && q in tl ==> p.speed == q.speed) ==> SpeedDecayScore(tl) == (0.0, 0.0)
    ensures |tl| >= 3 && (exists p, q :: p in tl && q in tl && p.speed != q.speed) ==>
              var (score, slope) := SpeedDecayScore(tl);
              && BestSlope(tl, slope)
              && Times(slope, Spread(tl)) == Pairs(tl)
              && score == (if slope >= 0.0 then 0.0 else if slope <= -0.1 then 25.0 else -250.0 * slope)
  {
    hide Times, Variation, Spread, Pairs, MeanX, MeanY, Slope, SquaredError, Increasing;
    if |tl| >= 3 {
      SlopeIsPairs(tl);
      var s, a := Slope(tl), Intercept(tl);
      forall a', b
        ensures SquaredError(tl, a, s) <= SquaredError(tl, a', b)
        ensures b != s ==> SquaredError(tl, a, s) < SquaredError(tl, a', b)
      {
        SlopeFitsBest(tl, a', b);
      }
    }
  }

  // ---------------------------------------------------------------- half totals

  function HalfDistance(records: seq<Stats.BlockRecord>, half: nat): real {
    if records == [] then 0.0
    else (if records[0].half == half then records[0].distance else 0.0) + HalfDistance(records[1..], half)
  }

  lemma {:induction false} HalvesAdd(records: seq<Stats.BlockRecord>)
    requires forall g :: 0 <= g < |records| ==> records[g].half in {0, 1}
    ensures HalfDistance(records, 0) + HalfDistance(records, 1) == Stats.RecordSum(records)
  {
    if records != [] {
      HalvesAdd(records[1..]);
    }
  }

  lemma {:induction false} ConcatSplits(groups: seq<seq<Stats.Sample>>, c: nat)
    requires c <= |groups|
    ensures Stats.Concat(groups) == Stats.Concat(groups[..c]) + Stats.Concat(groups[c..])
  {
    if c > 0 {
      ConcatSplits(groups[1..], c - 1);
      assert groups[..c][1..] == groups[1..][..c - 1];
    }
  }

  /** When the first `c` records are of the first half and the others of the second. */
  lemma {:induction false} HalvesOf(groups: seq<seq<Stats.Sample>>, records: seq<Stats.BlockRecord>, c: nat)
    requires |records| == |groups| && c <= |groups|
    requires forall g :: 0 <= g < |groups| ==> records[g].distance == Stats.DistanceSum(groups[g])
    requires forall g :: 0 <= g < |groups| ==> records[g].half == if g < c then 0 else 1
    ensures HalfDistance(records, 0) == Stats.DistanceSum(Stats.Concat(groups[..c]))
    ensures HalfDistance(records, 1) == Stats.DistanceSum(Stats.Concat(groups[c..]))
  {
    hide Stats.DistanceSum;
    if groups == [] {
      assert Stats.DistanceSum([]) == 0.0 by { NoDistance(); }
    } else if c > 0 {
      HalvesOf(groups[1..], records[1..], c - 1);
      assert groups[..c][1..] == groups[1..][..c - 1];
      Stats.DistanceAppend(groups[0], Stats.Concat(groups[..c][1..]));
    } else {
      HalvesOf(groups[1..], records[1..], 0);
      assert groups[1..][..0] == groups[..0] && groups[0..] == groups && groups[1..][0..] == groups[1..];
      Stats.DistanceAppend(groups[0], Stats.Concat(groups[1..]));
    }
  }

  lemma NoDistance()
    ensures Stats.DistanceSum([]) == 0.0
  {
  }

  /** How many leading groups start before the boundary. */
  function Early(groups: seq<seq<Stats.Sample>>, boundary: real): (c: nat)
    requires forall g :: 0 <= g < |groups| ==> groups[g] != []
    ensures c <= |groups|
    ensures forall g :: 0 <= g < c ==> groups[g][0].time < boundary
    ensures c < |groups| ==> groups[c][0].time >= boundary
  {
    if groups == [] || groups[0][0].time >= boundary then 0 else 1 + Early(groups[1..], boundary)
  }

  /** Row `m` cuts the track between two blocks: the block before it starts before the boundary, and
      the one it starts does not. */
  ghost predicate CutsHalves(track: seq<Stats.Sample>, boundary: real, m: nat) {
    && m <= |track|
    && (m < |track| ==> track[m].time >= boundary)
    && (0 < m < |track| ==> Stats.BlockOf(track[m - 1]) < Stats.BlockOf(track[m]))
    && (m > 0 ==> exists k: nat ::
          k < m && Stats.BlockOf(track[k]) == Stats.BlockOf(track[m - 1]) && track[k].time < boundary)
  }

  /** The row where group `c` of an unbroken grouping begins, and the group before it. */
  lemma WhereGroupStarts(track: seq<Stats.Sample>, groups: seq<seq<Stats.Sample>>, c: nat)
    requires Stats.Concat(groups) == track && c <= |groups|
    ensures var (first, second) := (Stats.Concat(groups[..c]), Stats.Concat(groups[c..]));
            && |first| <= |track| && track[..|first|] == first && track[|first|..] == second
            && (c < |groups| ==> groups[c] <= second) && (c == |groups| ==> second == [])
            && (c > 0 ==> |groups[c - 1]| <= |first| && first[|first| - |groups[c - 1]|..] == groups[c - 1])
            && (c == 0 ==> first == [])
  {
    ConcatSplits(groups, c);
    if c > 0 {
      var last := groups[c - 1];
      ConcatSplits(groups[..c], c - 1);
      assert groups[..c][c - 1..] == [last] && groups[..c][..c - 1] == groups[..c - 1];
      assert Stats.Concat([last]) == last;
    }
  }

  lemma CutAt(track: seq<Stats.Sample>, boundary: real, groups: seq<seq<Stats.Sample>>, c: nat)
    requires Stats.Concat(groups) == track && c <= |groups|
    requires forall g :: 0 <= g < |groups| ==>
               groups[g] != [] && forall x :: x in groups[g] ==> Stats.BlockOf(x) == Stats.BlockOf(groups[g][0])
    requires forall g, h :: 0 <= g < h < |groups| ==> Stats.BlockOf(groups[g][0]) < Stats.BlockOf(groups[h][0])
    requires c < |groups| ==> groups[c][0].time >= boundary
    requires c > 0 ==> groups[c - 1][0].time < boundary
    ensures CutsHalves(track, boundary, |Stats.Concat(groups[..c])|)
  {
    hide Stats.BlockOf, Stats.Concat;
    WhereGroupStarts(track, groups, c);
    var m := |Stats.Concat(groups[..c])|;
    if c < |groups| {
      assert m < |track| ==> track[m] == track[m..][0] == groups[c][0];
    }
    if c > 0 {
      var last := groups[c - 1];
      var k: nat := m - |last|;
      assert track[..m][k..][0] == last[0] && track[..m][k..][|last| - 1] == last[|last| - 1];
      assert track[k] == last[0] && track[m - 1] == last[|last| - 1];
      assert last[|last| - 1] in last;
    }
  }

  /** The half distances cut the track at a border between blocks, so a block that straddles the
      boundary counts to the first half with all its rows. */
  lemma HalvesCut(track: seq<Stats.Sample>, boundary: real) returns (m: nat)
    requires Stats.Sorted(track)
    ensures CutsHalves(track, boundary, m)
    ensures HalfDistance(Stats.RecordsOf(track, boundary), 0) == Stats.DistanceSum(track[..m])
    ensures HalfDistance(Stats.RecordsOf(track, boundary), 1) == Stats.DistanceSum(track[m..])
  {
    hide Stats.DistanceSum, Stats.Blocks, Stats.SpeedSum, Stats.PeakSpeed, Stats.Sprints, Stats.BlockOf, HalfDistance,
      Stats.Concat, Stats.Sorted, CutsHalves;
    var groups := Stats.Blocks(track);
    Stats.BlocksPartition(track);
    var c := Early(groups, boundary);
    forall g | c <= g < |groups| ensures groups[g][0].time >= boundary {
      if g > c {
        Stats.BlockRises(groups[c][0], groups[g][0]);
      }
    }
    HalvesOf(groups, Stats.RecordsOf(track, boundary), c);
    WhereGroupStarts(track, groups, c);
    CutAt(track, boundary, groups, c);
    m := |Stats.Concat(groups[..c])|;
  }

  /** The fatigue step's two half distances of a player, each the sum over the block records of its
      half; distance is conserved: together they are the distance of the whole track. */
  method HalfTotals(track: seq<Stats.Sample>, boundary: real) returns (first: real, second: real)
    requires Stats.Sorted(track)
    ensures first == HalfDistance(Stats.RecordsOf(track, boundary), 0)
    ensures second == HalfDistance(Stats.RecordsOf(track, boundary), 1)
    ensures first + second == Stats.DistanceSum(track)
  {
    var records := Stats.AggregateBlocks(track, boundary);
    assert forall g :: 0 <= g < |records| ==> records[g].half in {0, 1};
    hide Stats.DistanceSum, Stats.Sorted, Stats.Blocks, Stats.Sprints, Stats.RecordSprints, Stats.RecordsOf;
    first, second := HalfDistance(records, 0), HalfDistance(records, 1);
    HalvesAdd(records);
  }
}
