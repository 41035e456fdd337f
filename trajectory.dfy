/** What one epoch of the attractor computes besides the trail itself: the
    running centroid sum, the running speed minimum and maximum, and the
    tracer sampling at a fixed stride. */
module Trajectory {
  import opened LorenzField

  function Add(a: Point, b: Point): Point {
    Point(a.x + b.x, a.y + b.y, a.z + b.z)
  }

  /** Each coordinate divided by n (the centroid's final division). */
  function Divide(a: Point, n: real): Point
    requires n != 0.0
  {
    Point(a.x / n, a.y / n, a.z / n)
  }

  /** The coordinate-wise sum of the points of s. */
  function Sum(s: seq<Point>): Point {
    if s == [] then Origin else Add(Sum(s[..|s| - 1]), s[|s| - 1])
  }

  /** The sum of an epoch's points is the sum of its halves. */
  lemma {:induction false} SumConcat(a: seq<Point>, b: seq<Point>)
    ensures Sum(a + b) == Add(Sum(a), Sum(b))
  {
    if b == [] {
      assert a + b == a;
    } else {
      assert (a + b)[..|a + b| - 1] == a + b[..|b| - 1];
      SumConcat(a, b[..|b| - 1]);
    }
  }

  /** JavaScript's Math.min and Math.max on non-NaN numbers. */
  function Min(a: real, b: real): (r: real)
    ensures r <= a && r <= b && (r == a || r == b)
  {
    if a <= b then a else b
  }

  function Max(a: real, b: real): (r: real)
    ensures a <= r && b <= r && (r == a || r == b)
  {
    if a >= b then a else b
  }

  /** The minimum speed tracker after it has seen the speed at each point of
      pts in turn, starting from m. */
  function MinSpeed(pr: Params, m: real, pts: seq<Point>): real {
    if pts == [] then m
    else Min(MinSpeed(pr, m, pts[..|pts| - 1]), Speed(pr, pts[|pts| - 1]))
  }

  /** The maximum speed tracker, dually. */
  function MaxSpeed(pr: Params, m: real, pts: seq<Point>): real {
    if pts == [] then m
    else Max(MaxSpeed(pr, m, pts[..|pts| - 1]), Speed(pr, pts[|pts| - 1]))
  }

  /** The minimum tracker never rises above its start or above any observed
      speed, and it always holds its start or one of the observed speeds. */
  lemma {:induction false} MinSpeedBounds(pr: Params, m: real, pts: seq<Point>)
    ensures MinSpeed(pr, m, pts) <= m
    ensures forall i :: 0 <= i < |pts| ==> MinSpeed(pr, m, pts) <= Speed(pr, pts[i])
    ensures MinSpeed(pr, m, pts) == m ||
            exists i :: 0 <= i < |pts| && MinSpeed(pr, m, pts) == Speed(pr, pts[i])
  {
    if pts != [] {
      var prefix := pts[..|pts| - 1];
      MinSpeedBounds(pr, m, prefix);
      assert forall i :: 0 <= i < |prefix| ==> prefix[i] == pts[i];
    }
  }

  /** The maximum tracker never falls below its start or below any observed
      speed, and it always holds its start or one of the observed speeds. */
  lemma {:induction false} MaxSpeedBounds(pr: Params, m: real, pts: seq<Point>)
    ensures m <= MaxSpeed(pr, m, pts)
    ensures forall i :: 0 <= i < |pts| ==> Speed(pr, pts[i]) <= MaxSpeed(pr, m, pts)
    ensures MaxSpeed(pr, m, pts) == m ||
            exists i :: 0 <= i < |pts| && MaxSpeed(pr, m, pts) == Speed(pr, pts[i])
  {
    if pts != [] {
      var prefix := pts[..|pts| - 1];
      MaxSpeedBounds(pr, m, prefix);
      assert forall i :: 0 <= i < |prefix| ==> prefix[i] == pts[i];
    }
  }

  /** Division rounded up: the number of multiples of k below n. */
  function CeilDiv(n: nat, k: nat): nat
    requires k > 0
  {
    (n + k - 1) / k
  }

  /** Euclidean division is determined by quotient and remainder. */
  lemma DivisionUnique(a: int, k: int, q: int, r: int)
    requires k > 0 && 0 <= r < k && a == q * k + r
    ensures a / k == q && a % k == r
  {
    var q', r' := a / k, a % k;
    assert (q' - q) * k == r - r';
    SmallMultipleIsZero(q' - q, k);
  }

  /** The only multiple of k strictly between -k and k is zero. */
  lemma SmallMultipleIsZero(d: int, k: int)
    requires k > 0 && -k < d * k < k
    ensures d == 0
  {
    if d >= 1 {
      MultiplyMonotone(1, d, k);
    } else if d <= -1 {
      MultiplyMonotone(d, -1, k);
    }
  }

  lemma MultiplyMonotone(a: int, b: int, k: int)
    requires a <= b && k > 0
    ensures a * k <= b * k
  {
    assert b * k - a * k == (b - a) * k;
  }

  /** Sampling one more index adds a tracer exactly when that index is a
      multiple of the stride. */
  lemma CeilDivStep(m: nat, k: nat)
    requires k > 0
    ensures CeilDiv(m + 1, k) == CeilDiv(m, k) + (if m % k == 0 then 1 else 0)
    ensures m % k == 0 ==> CeilDiv(m, k) * k == m
  {
    var q, r := m / k, m % k;
    assert m == q * k + r;
    DivisionUnique(m + k, k, q + 1, r);
    if r == 0 {
      DivisionUnique(m + k - 1, k, q, k - 1);
    } else {
      DivisionUnique(m + k - 1, k, q + 1, r - 1);
    }
  }

  /** With P tracers requested over N points, P dividing N, the stride N / P
      is positive and sampling every stride-th point yields exactly P
      tracers (for the sketch's 7000 points and 50 tracers: stride 140). */
  lemma StrideCount(n: nat, p: nat)
    requires n > 0 && p > 0 && n % p == 0
    ensures n / p > 0 && CeilDiv(n, n / p) == p
  {
    var k := n / p;
    assert n == k * p;
    DivisionUnique(n + k - 1, k, p, k - 1);
  }

  /** The tracers an epoch seeds: the points of t whose index is a multiple of
      the stride k, in order. */
  function Sampled(t: seq<Point>, k: nat): seq<Point>
    requires k > 0
  {
    if t == [] then []
    else Sampled(t[..|t| - 1], k) + (if (|t| - 1) % k == 0 then [t[|t| - 1]] else [])
  }

  /** There are ceil(|t| / k) samples and sample j is point j * k. */
  lemma {:induction false} SampledAt(t: seq<Point>, k: nat)
    requires k > 0
    ensures |Sampled(t, k)| == CeilDiv(|t|, k)
    ensures forall j :: 0 <= j < |Sampled(t, k)| ==> j * k < |t| && Sampled(t, k)[j] == t[j * k]
  {
    if t != [] {
      var m := |t| - 1;
      var prefix := t[..m];
      SampledAt(prefix, k);
      CeilDivStep(m, k);
      forall j | 0 <= j < |Sampled(t, k)|
        ensures j * k < |t| && Sampled(t, k)[j] == t[j * k]
      {
        if j < |Sampled(prefix, k)| {
          assert prefix[j * k] == t[j * k];
        } else {
          assert j == CeilDiv(m, k) && m % k == 0;
        }
      }
    }
  }

  /** What observing one more point q does to each running quantity of an
      epoch. */
  lemma ObserveOneMore(pr: Params, m: real, big: real, k: nat, pts: seq<Point>, q: Point)
    requires k > 0
    ensures Sum(pts + [q]) == Add(Sum(pts), q)
    ensures MinSpeed(pr, m, pts + [q]) == Min(MinSpeed(pr, m, pts), Speed(pr, q))
    ensures MaxSpeed(pr, big, pts + [q]) == Max(MaxSpeed(pr, big, pts), Speed(pr, q))
    ensures Sampled(pts + [q], k) == Sampled(pts, k) + (if |pts| % k == 0 then [q] else [])
  {
    assert (pts + [q])[..|pts|] == pts;
  }

  /** The running state of an epoch: the position, the points visited so
      far, the centroid accumulator, the two speed trackers and the positions
      of the tracers seeded so far. */
  datatype Tally = Tally(position: Point, visited: seq<Point>, sum: Point,
                         slowest: real, fastest: real, samples: seq<Point>)

  /** Step i of an epoch with stride k: move, accumulate the new position,
      fold its speed into the trackers and seed a tracer there when i is a
      multiple of k. */
  function Observe(pr: Params, k: nat, t: Tally, i: nat): Tally
    requires k > 0
  {
    var q := Step(pr, t.position);
    Tally(q, t.visited + [q], Add(t.sum, q), Min(t.slowest, Speed(pr, q)), Max(t.fastest, Speed(pr, q)),
          t.samples + (if i % k == 0 then [q] else []))
  }

  /** The state after the first n steps of an epoch that starts in state t. */
  function Run(pr: Params, k: nat, t: Tally, n: nat): Tally
    requires k > 0
  {
    if n == 0 then t else Observe(pr, k, Run(pr, k, t, n - 1), n - 1)
  }

  /** Running an epoch step by step is the same as taking the trail first and
      then its sum, its speed extremes and its stride samples. */
  lemma {:induction false} RunMatchesTrail(pr: Params, k: nat, t: Tally, n: nat)
    requires k > 0
    ensures Run(pr, k, t, n).position == Iterate(pr, t.position, n)
    ensures Run(pr, k, t, n).visited == t.visited + Trail(pr, t.position, n)
    ensures Run(pr, k, t, n).sum == Add(t.sum, Sum(Trail(pr, t.position, n)))
    ensures Run(pr, k, t, n).slowest == MinSpeed(pr, t.slowest, Trail(pr, t.position, n))
    ensures Run(pr, k, t, n).fastest == MaxSpeed(pr, t.fastest, Trail(pr, t.position, n))
    ensures Run(pr, k, t, n).samples == t.samples + Sampled(Trail(pr, t.position, n), k)
  {
    if n == 0 {
      assert t.samples + [] == t.samples;
      assert t.visited + [] == t.visited;
    } else {
      RunMatchesTrail(pr, k, t, n - 1);
      var before := Trail(pr, t.position, n - 1);
      ObserveOneMore(pr, t.slowest, t.fastest, k, before, Iterate(pr, t.position, n));
    }
  }

  /** What an epoch promises, for n points and count tracers with count
      dividing n, started with nothing visited and nothing sampled: it visits
      the trail, ends on its last point, adds every point to the centroid
      accumulator, leaves trackers that only widened and that bound every
      speed it saw, and seeds exactly count tracers, tracer j on point
      j * (n / count). */
  lemma EpochProperties(pr: Params, t: Tally, n: nat, count: nat, r: Tally)
    requires 0 < n && 0 < count && n % count == 0
    requires t.visited == [] && t.samples == []
    requires r == Run(pr, n / count, t, n)
    ensures r.visited == Trail(pr, t.position, n)
    ensures r.position == r.visited[n - 1]
    ensures r.sum == Add(t.sum, Sum(r.visited))
    ensures r.slowest == MinSpeed(pr, t.slowest, r.visited)
    ensures r.fastest == MaxSpeed(pr, t.fastest, r.visited)
    ensures r.slowest <= t.slowest && t.fastest <= r.fastest
    ensures forall i :: 0 <= i < n ==> r.slowest <= Speed(pr, r.visited[i]) <= r.fastest
    ensures r.slowest <= r.fastest
    ensures |r.samples| == count
    ensures forall j :: 0 <= j < count ==>
              j * (n / count) < n && r.samples[j] == r.visited[j * (n / count)]
  {
    var k := n / count;
    StrideCount(n, count);
    RunMatchesTrail(pr, k, t, n);
    var trail := Trail(pr, t.position, n);
    assert t.visited + trail == trail && t.samples + Sampled(trail, k) == Sampled(trail, k);
    MinSpeedBounds(pr, t.slowest, trail);
    MaxSpeedBounds(pr, t.fastest, trail);
    SampledAt(trail, k);
  }
}
