/** Piecewise-linear interpolation on one joint: times are the planned points' times, y the joint's
    planned positions. */
module Segments {
  import opened Reals

  /** The segment a search from segment s finds for time t: the first that ends at t or later, or
      the last. */
  function SegmentFrom(times: seq<real>, s: nat, t: real): (r: nat)
    ensures s <= r
    ensures r == s || (r + 1 < |times| && times[r] < t)
    ensures r + 1 < |times| - 1 ==> t <= times[r + 1]
    ensures s + 1 < |times| ==> r + 1 < |times|
    decreases |times| - s
  {
    if s + 1 < |times| - 1 && times[s + 1] < t then SegmentFrom(times, s + 1, t) else s
  }

  function Segment(times: seq<real>, t: real): (s: nat)
    ensures times != [] ==> s < |times|
  {
    SegmentFrom(times, 0, t)
  }

  /** A search that goes on from the segment of an earlier time finds the same segment as a search
      from the first one. */
  lemma {:induction false} CarriedSearchAgrees(times: seq<real>, s: nat, earlier: real, t: real)
    requires earlier <= t
    ensures SegmentFrom(times, SegmentFrom(times, s, earlier), t) == SegmentFrom(times, s, t)
    decreases |times| - s
  {
    if s + 1 < |times| - 1 && times[s + 1] < earlier {
      CarriedSearchAgrees(times, s + 1, earlier, t);
    }
  }

  /** How far along a segment from t0 to t1 time t is, 0 for a segment without duration. */
  function Ratio(t0: real, t1: real, t: real): (r: real)
    ensures 0.0 <= r <= 1.0
  {
    if t1 - t0 <= 0.0 then 0.0
    else
      var r := (t - t0) / (t1 - t0);
      if r < 0.0 then 0.0 else if r > 1.0 then 1.0 else r
  }

  /** The position at time t on the line from y0 at t0 to y1 at t1. */
  function OnLine(y0: real, y1: real, t0: real, t1: real, t: real): real {
    y0 + (y1 - y0) * Ratio(t0, t1, t)
  }

  /** The point at the other end of segment s. */
  function EndOf(times: seq<real>, s: nat): nat {
    if s + 1 < |times| then s + 1 else s
  }

  function Interpolate(times: seq<real>, y: seq<real>, s: nat, t: real): real
    requires s < |times| == |y|
  {
    var next := EndOf(times, s);
    OnLine(y[s], y[next], times[s], times[next], t)
  }

  function At(times: seq<real>, y: seq<real>, t: real): real
    requires 0 < |times| == |y|
  {
    Interpolate(times, y, Segment(times, t), t)
  }

  // -------- bounds on one segment

  function ClampTo(x: real, span: real): real {
    if x < 0.0 then 0.0 else if x > span then span else x
  }

  lemma QuotientProduct(x: real, span: real, q: real)
    requires span > 0.0 && q == x / span
    ensures q * span == x
  {
  }

  lemma ClampScaled(x: real, span: real, q: real)
    requires span > 0.0 && q == x / span
    ensures q < 0.0 <==> x < 0.0
    ensures q > 1.0 <==> x > span
  {
    QuotientProduct(x, span, q);
    if q < 0.0 { assert q * span < 0.0; }
    if q >= 0.0 { assert q * span >= 0.0; }
    if q > 1.0 { assert (q - 1.0) * span > 0.0; }
    if q <= 1.0 { assert (q - 1.0) * span <= 0.0; }
  }

  /** The ratio times the duration is the time since the segment began, clamped. */
  lemma RatioScaled(t0: real, t1: real, t: real, span: real, r: real, p: real)
    requires t0 < t1 && span == t1 - t0
    requires r == Ratio(t0, t1, t) && p == ClampTo(t - t0, span)
    ensures Product(p, r, span)
  {
    var x := t - t0;
    var q := x / span;
    QuotientProduct(x, span, q);
    ClampScaled(x, span, q);
  }

  /** How far one can move in dt at speed v. */
  function Travel(v: real, dt: real): real {
    v * dt
  }

  lemma TravelMono(v: real, a: real, b: real)
    requires v >= 0.0 && a <= b
    ensures Travel(v, a) <= Travel(v, b)
  {
    MulMono(v, a, b);
  }

  lemma TravelAdd(v: real, a: real, b: real)
    ensures Travel(v, a) + Travel(v, b) == Travel(v, a + b)
  {
  }

  lemma ScaledStep(v: real, d: real, span: real, r: real, p: real)
    requires r >= 0.0 && Within(d, Travel(v, span)) && p == r * span
    ensures Within(d * r, Travel(v, p))
  {
    var far := v * span;
    MulNonneg(far - d, r);
    MulNonneg(far + d, r);
    assert (far - d) * r == far * r - d * r;
    assert (far + d) * r == far * r + d * r;
    assert far * r == v * (r * span);
  }

  lemma ScaledStepWithin(v: real, d: real, span: real, rt: real, ru: real, pt: real, pu: real, w: real)
    requires v >= 0.0 && rt <= ru && Within(d, Travel(v, span))
    requires Product(pt, rt, span) && Product(pu, ru, span) && pu - pt <= w
    ensures Within(d * ru - d * rt, Travel(v, w))
  {
    var r, p := ru - rt, pu - pt;
    assert r * span == ru * span - rt * span;
    assert d * r == d * ru - d * rt;
    ScaledStep(v, d, span, r, p);
    TravelMono(v, p, w);
  }

  lemma OrderFromScaled(a: real, b: real, span: real, pa: real, pb: real)
    requires span > 0.0 && Product(pa, a, span) && Product(pb, b, span) && pa <= pb
    ensures a <= b
  {
    assert (a - b) * span == a * span - b * span;
    if b < a {
      MulPositive(a - b, span);
    }
  }

  /** Positions on one line differ by at most what the speed allows in the time between them. */
  lemma OnLineMoves(v: real, y0: real, y1: real, t0: real, t1: real, t: real, u: real)
    requires v >= 0.0 && t0 <= t1 && Within(y1 - y0, Travel(v, t1 - t0)) && t <= u
    ensures Within(OnLine(y0, y1, t0, t1, u) - OnLine(y0, y1, t0, t1, t), Travel(v, u - t))
  {
    hide Ratio, Product;
    var d, span, w := y1 - y0, t1 - t0, u - t;
    var rt, ru := Ratio(t0, t1, t), Ratio(t0, t1, u);
    if t0 < t1 {
      var pt, pu := ClampTo(t - t0, span), ClampTo(u - t0, span);
      RatioScaled(t0, t1, t, span, rt, pt);
      RatioScaled(t0, t1, u, span, ru, pu);
      OrderFromScaled(rt, ru, span, pt, pu);
      ScaledStepWithin(v, d, span, rt, ru, pt, pu, w);
    } else {
      NoTravel(v);
      TravelMono(v, 0.0, w);
      assert span == 0.0 && d == 0.0;
    }
  }

  lemma NoTravel(v: real)
    ensures Travel(v, 0.0) == 0.0
  {
  }

  lemma OnLineEnds(v: real, y0: real, y1: real, t0: real, t1: real)
    requires t0 <= t1 && Within(y1 - y0, Travel(v, t1 - t0))
    ensures OnLine(y0, y1, t0, t1, t0) == y0 && OnLine(y0, y1, t0, t1, t1) == y1
  {
    var span := t1 - t0;
    if t0 < t1 {
      QuotientProduct(span, span, span / span);
      QuotientProduct(0.0, span, 0.0 / span);
      assert Ratio(t0, t1, t1) == 1.0;
    } else {
      NoTravel(v);
      assert span == 0.0;
    }
  }

  lemma OnLineBetween(y0: real, y1: real, t0: real, t1: real, t: real)
    ensures y0 <= y1 ==> y0 <= OnLine(y0, y1, t0, t1, t) <= y1
    ensures y1 <= y0 ==> y1 <= OnLine(y0, y1, t0, t1, t) <= y0
  {
    var d, r := y1 - y0, Ratio(t0, t1, t);
    if y0 <= y1 {
      MulNonneg(d, r);
      MulNonneg(d, 1.0 - r);
    } else {
      MulNonneg(-d, r);
      MulNonneg(-d, 1.0 - r);
    }
  }

  // -------- bounds across segments

  /** Times do not decrease and every planned segment moves at most at speed v. */
  ghost predicate Slow(v: real, times: seq<real>, y: seq<real>) {
    && v >= 0.0 && 0 < |times| == |y|
    && forall k :: 0 <= k && k + 1 < |times| ==>
         times[k] <= times[k + 1] && Within(y[k + 1] - y[k], Travel(v, times[k + 1] - times[k]))
  }

  lemma {:induction false} PlannedMoves(v: real, times: seq<real>, y: seq<real>, a: nat, b: nat)
    requires Slow(v, times, y) && a <= b < |times|
    ensures times[a] <= times[b] && Within(y[b] - y[a], Travel(v, times[b] - times[a]))
    decreases b - a
  {
    hide Travel;
    if a < b {
      PlannedMoves(v, times, y, a, b - 1);
      assert times[b - 1] <= times[b - 1 + 1];
      TravelAdd(v, times[b - 1] - times[a], times[b] - times[b - 1]);
    } else {
      NoTravel(v);
    }
  }

  /** Any two interpolated positions, however many segments apart, differ by at most the speed times
      the time between them. */
  lemma SpeedIsKept(v: real, times: seq<real>, y: seq<real>, t: real, u: real)
    requires Slow(v, times, y) && t <= u
    ensures Within(At(times, y, u) - At(times, y, t), Travel(v, u - t))
  {
    hide Travel, OnLine;
    var s, r := Segment(times, t), Segment(times, u);
    CarriedSearchAgrees(times, 0, t, u);
    if s == r {
      SameSegment(v, times, y, s, t, u);
    } else {
      SegmentStep(v, times, y, s, t, times[s + 1]);
      PlannedMoves(v, times, y, s + 1, r);
      SegmentStep(v, times, y, r, times[r], u);
      TravelAdd(v, times[s + 1] - t, times[r] - times[s + 1]);
      TravelAdd(v, times[r] - t, u - times[r]);
    }
  }

  lemma SegmentStep(v: real, times: seq<real>, y: seq<real>, s: nat, t: real, u: real)
    requires Slow(v, times, y) && s + 1 < |times| && t <= u
    ensures Within(Interpolate(times, y, s, u) - Interpolate(times, y, s, t), Travel(v, u - t))
    ensures Interpolate(times, y, s, times[s]) == y[s]
    ensures Interpolate(times, y, s, times[s + 1]) == y[s + 1]
  {
    OnLineMoves(v, y[s], y[s + 1], times[s], times[s + 1], t, u);
    OnLineEnds(v, y[s], y[s + 1], times[s], times[s + 1]);
  }

  /** A trajectory of one point stays there. */
  lemma SameSegment(v: real, times: seq<real>, y: seq<real>, s: nat, t: real, u: real)
    requires Slow(v, times, y) && s < |times| && (s + 1 < |times| || |times| == 1) && t <= u
    ensures Within(Interpolate(times, y, s, u) - Interpolate(times, y, s, t), Travel(v, u - t))
  {
    if s + 1 < |times| {
      SegmentStep(v, times, y, s, t, u);
    } else {
      MulNonneg(v, u - t);
    }
  }

  /** At the last planned time the position is the last planned position. */
  lemma EndsAtLast(v: real, times: seq<real>, y: seq<real>)
    requires Slow(v, times, y)
    ensures At(times, y, times[|times| - 1]) == y[|y| - 1]
  {
    hide Travel, Ratio;
    var last := |times| - 1;
    var t := times[last];
    var s := Segment(times, t);
    if last > 0 {
      PlannedMoves(v, times, y, s + 1, last);
      assert t <= times[s + 1] <= t;
      SegmentStep(v, times, y, s, t, times[s + 1]);
      NoTravel(v);
      assert times[s + 1] - t == 0.0 && times[last] - times[s + 1] == 0.0;
    }
  }

  // -------- the end, without a speed bound

  ghost predicate Ordered(times: seq<real>) {
    forall i, j :: 0 <= i < j < |times| ==> times[i] <= times[j]
  }

  function FirstFrom(times: seq<real>, k: nat, t: real): (first: nat)
    requires exists i :: k <= i < |times| && times[i] == t
    ensures k <= first < |times| && times[first] == t
    ensures forall i :: k <= i < first ==> times[i] != t
    decreases |times| - k
  {
    if times[k] == t then k else FirstFrom(times, k + 1, t)
  }

  /** The first point planned at the time of point m. */
  function FirstAt(times: seq<real>, m: nat): (first: nat)
    requires m < |times|
    ensures first <= m && times[first] == times[m]
    ensures forall i :: 0 <= i < first ==> times[i] != times[m]
  {
    FirstFrom(times, 0, times[m])
  }

  /** The first point planned at the last time. */
  function FirstAtEnd(times: seq<real>): (first: nat)
    requires times != []
    ensures first < |times| && times[first] == times[|times| - 1]
    ensures forall i :: 0 <= i < first ==> times[i] != times[|times| - 1]
  {
    FirstAt(times, |times| - 1)
  }

  /** A planned time is found at the end of the segment before the first point planned then, or, if
      that is the first point of all, at the start of the first segment. */
  lemma PlannedRatio(times: seq<real>, m: nat)
    requires m < |times| && Ordered(times)
    ensures var t, k := times[m], FirstAt(times, m);
            && Segment(times, t) == (if k == 0 then 0 else k - 1)
            && Ratio(times[if k == 0 then 0 else k - 1], times[EndOf(times, if k == 0 then 0 else k - 1)], t)
               == (if k == 0 then 0.0 else 1.0)
  {
    var t, k := times[m], FirstAt(times, m);
    if k > 0 {
      assert times[k - 1] < t;
      assert Segment(times, t) == k - 1;
      var span := t - times[k - 1];
      QuotientProduct(span, span, span / span);
      assert Ratio(times[k - 1], t, t) == 1.0;
      assert EndOf(times, k - 1) == k;
    } else {
      assert times[0] == t;
      assert Segment(times, t) == 0;
      StartRatio(t, times[EndOf(times, 0)]);
    }
  }

  lemma StartRatio(t0: real, t1: real)
    ensures Ratio(t0, t1, t0) == 0.0
  {
    if t0 < t1 {
      QuotientProduct(0.0, t1 - t0, 0.0 / (t1 - t0));
    }
  }

  /** At a planned time the position is that of the first point planned then. */
  lemma PlannedPosition(times: seq<real>, y: seq<real>, m: nat)
    requires m < |times| == |y| && Ordered(times)
    ensures At(times, y, times[m]) == y[FirstAt(times, m)]
  {
    PlannedRatio(times, m);
  }

  /** The final position is that of the first point planned at the last time, whatever the points
      after it say. */
  lemma FinalPosition(times: seq<real>, y: seq<real>)
    requires 0 < |times| == |y| && Ordered(times)
    ensures At(times, y, times[|times| - 1]) == y[FirstAtEnd(times)]
  {
    PlannedPosition(times, y, |times| - 1);
  }

  /** Within a segment the way made is to the whole way as the time passed is to the duration. */
  lemma OnLineProportional(y0: real, y1: real, t0: real, t1: real, t: real)
    requires t0 <= t <= t1 && t0 < t1
    ensures (OnLine(y0, y1, t0, t1, t) - y0) * (t1 - t0) == (y1 - y0) * (t - t0)
  {
    var span, passed, d, r := t1 - t0, t - t0, y1 - y0, Ratio(t0, t1, t);
    RatioScaled(t0, t1, t, span, r, passed);
    assert (d * r) * span == d * (r * span);
    assert OnLine(y0, y1, t0, t1, t) - y0 == d * r;
  }
}
