/** Per-sample metrics in exact real arithmetic: Dice and IoU of two masks, and the symmetric
    Hausdorff distance of two one-dimensional point sets. */
module Metrics {
  import opened Prelude

  /** A metric value; the Hausdorff distance from or to no points is infinite. */
  datatype Num = Finite(value: real) | Infinite

  datatype MetricError = LengthMismatch

  // ---- Dice and IoU --------------------------------------------------------------------------

  function Count(m: seq<bool>): nat {
    if m == [] then 0 else (if m[0] then 1 else 0) + Count(m[1..])
  }

  function Both(p: seq<bool>, t: seq<bool>): nat
    requires |p| == |t|
  {
    if p == [] then 0 else (if p[0] && t[0] then 1 else 0) + Both(p[1..], t[1..])
  }

  function Either(p: seq<bool>, t: seq<bool>): nat
    requires |p| == |t|
  {
    if p == [] then 0 else (if p[0] || t[0] then 1 else 0) + Either(p[1..], t[1..])
  }

  function Dice(p: seq<bool>, t: seq<bool>): Result<real, MetricError> {
    if |p| != |t| then Err(LengthMismatch)
    else
      var sp, st := Count(p), Count(t);
      if sp == 0 && st == 0 then Ok(1.0)
      else Ok(2.0 * Both(p, t) as real / (sp + st) as real)
  }

  function Iou(p: seq<bool>, t: seq<bool>): Result<real, MetricError> {
    if |p| != |t| then Err(LengthMismatch)
    else if Either(p, t) == 0 then Ok(1.0)
    else Ok(Both(p, t) as real / Either(p, t) as real)
  }

  /** The positions from `k` on that are in both masks, or in either. */
  function Positions(p: seq<bool>, t: seq<bool>, either: bool, k: nat): set<int>
    requires |p| == |t|
  {
    set i | k <= i < |p| && if either then p[i] || t[i] else p[i] && t[i]
  }

  lemma PositionsFrom(p: seq<bool>, t: seq<bool>, either: bool, k: nat)
    requires |p| == |t| && k < |p|
    ensures Positions(p, t, either, k)
            == Positions(p, t, either, k + 1) + if (if either then p[k] || t[k] else p[k] && t[k]) then {k} else {}
    ensures k !in Positions(p, t, either, k + 1)
  {
  }

  /** The overlap and the union are counted position by position. */
  lemma {:induction false} CountsArePositions(p: seq<bool>, t: seq<bool>, either: bool, k: nat)
    requires |p| == |t| && k <= |p|
    ensures (if either then Either(p[k..], t[k..]) else Both(p[k..], t[k..])) == |Positions(p, t, either, k)|
    decreases |p| - k
  {
    if k == |p| {
      assert Positions(p, t, either, k) == {};
    } else {
      hide Positions;
      PositionsFrom(p, t, either, k);
      CountsArePositions(p, t, either, k + 1);
      assert p[k..][1..] == p[k + 1..] && t[k..][1..] == t[k + 1..];
    }
  }

  /** IoU is the number of positions in both masks over the number in either. */
  lemma IouIs(p: seq<bool>, t: seq<bool>)
    ensures |p| != |t| <==> Iou(p, t) == Err(LengthMismatch)
    ensures |p| != |t| <==> Dice(p, t) == Err(LengthMismatch)
    ensures |p| == |t| ==>
              var both, either := |Positions(p, t, false, 0)|, |Positions(p, t, true, 0)|;
              Iou(p, t) == Ok(if either == 0 then 1.0 else both as real / either as real)
  {
    if |p| == |t| {
      CountsArePositions(p, t, false, 0);
      CountsArePositions(p, t, true, 0);
      assert p[0..] == p && t[0..] == t;
    }
  }

  /** The two masks' sizes are the sizes of their overlap and of their union, which differ exactly
      by the positions where the masks disagree. */
  lemma {:induction false} MaskCounts(p: seq<bool>, t: seq<bool>)
    requires |p| == |t|
    ensures Count(p) + Count(t) == Both(p, t) + Either(p, t)
    ensures Both(p, t) <= Either(p, t)
    ensures Both(p, t) == Either(p, t) <==> p == t
    ensures Both(p, t) == Both(t, p) && Either(p, t) == Either(t, p)
  {
    if p != [] {
      MaskCounts(p[1..], t[1..]);
      assert p == [p[0]] + p[1..] && t == [t[0]] + t[1..];
    }
  }

  /** Scaling by a positive factor keeps the order, both ways. */
  lemma ScaleOrder(x: real, y: real, n: real)
    requires n > 0.0
    ensures x < y <==> x * n < y * n
    ensures (y - x) * n == y * n - x * n
  {
    if x < y {
      assert 0.0 < (y - x) * n;
    } else {
      assert 0.0 <= (x - y) * n;
    }
  }

  /** 2x/(1+x) for a ratio x = b/u, without the inner division. */
  lemma DiceOfRatio(b: real, u: real)
    requires 0.0 <= b <= u && u > 0.0
    ensures 2.0 * b / (b + u) == 2.0 * (b / u) / (1.0 + b / u)
    ensures 0.0 <= b / u <= 1.0
    ensures b / u == 1.0 <==> b == u
  {
    var x := b / u;
    assert b == x * u;
    assert b + u == (1.0 + x) * u;
    ScaleOrder(1.0, x, u);
    ScaleOrder(x, 1.0, u);
    ScaleOrder(x, 0.0, u);
    var d := 2.0 * x / (1.0 + x);
    assert d * (1.0 + x) == 2.0 * x;
    assert d * (b + u) == d * ((1.0 + x) * u) == (d * (1.0 + x)) * u == 2.0 * b;
  }

  lemma DiceGrows(x: real, y: real)
    requires 0.0 <= x && 0.0 <= y
    ensures x <= y <==> 2.0 * x / (1.0 + x) <= 2.0 * y / (1.0 + y)
    ensures 2.0 * x / (1.0 + x) >= 0.0
    ensures x <= 1.0 <==> 2.0 * x / (1.0 + x) <= 1.0
  {
    GrowsOneWay(x, y);
    GrowsOneWay(y, x);
    GrowsOneWay(x, 1.0);
    GrowsOneWay(1.0, x);
    assert 2.0 * 1.0 / (1.0 + 1.0) == 1.0;
  }

  /** 2x/(1+x) is 2 - 2/(1+x). */
  lemma GrowsOneWay(x: real, y: real)
    requires 0.0 <= x && 0.0 <= y
    ensures x < y ==> 2.0 * x / (1.0 + x) < 2.0 * y / (1.0 + y)
    ensures x == y ==> 2.0 * x / (1.0 + x) == 2.0 * y / (1.0 + y)
    ensures 2.0 * x / (1.0 + x) >= 0.0
  {
    var a, b := 2.0 * x / (1.0 + x), 2.0 * y / (1.0 + y);
    var c, d := 2.0 - a, 2.0 - b;
    assert a * (1.0 + x) == 2.0 * x && b * (1.0 + y) == 2.0 * y;
    assert c * (1.0 + x) == 2.0 && d * (1.0 + y) == 2.0;
    ScaleOrder(0.0, d, 1.0 + y);
    ScaleOrder(1.0 + x, 1.0 + y, d);
    ScaleOrder(d, c, 1.0 + x);
    ScaleOrder(a, 0.0, 1.0 + x);
    if x < y {
      assert (1.0 + x) * d < (1.0 + y) * d;
      assert d * (1.0 + x) < c * (1.0 + x);
    }
  }

  /** Dice is 2 IoU / (1 + IoU) for all masks of one length, both empty ones included; both lie
      between 0 and 1, do not depend on the order of the masks, and are 1 exactly when the masks
      agree everywhere. */
  lemma DiceIsFunctionOfIou(p: seq<bool>, t: seq<bool>)
    requires |p| == |t|
    ensures var d, i := Dice(p, t).value, Iou(p, t).value;
            && d == 2.0 * i / (1.0 + i)
            && 0.0 <= i <= 1.0 && 0.0 <= d <= 1.0
            && (i == 1.0 <==> p == t) && (d == 1.0 <==> p == t)
    ensures Dice(p, t) == Dice(t, p) && Iou(p, t) == Iou(t, p)
  {
    MaskCounts(p, t);
    var b, u := Both(p, t), Either(p, t);
    if u != 0 {
      DiceOfRatio(b as real, u as real);
      assert (Count(p) + Count(t)) as real == b as real + u as real;
      assert Dice(p, t).value == 2.0 * b as real / (b as real + u as real);
    }
    DiceGrows(Iou(p, t).value, 1.0);
    DiceGrows(1.0, Iou(p, t).value);
  }

  /** Dice and IoU rank any two pairs of masks the same way. */
  lemma DiceAndIouRankAlike(p: seq<bool>, t: seq<bool>, p': seq<bool>, t': seq<bool>)
    requires |p| == |t| && |p'| == |t'|
    ensures Dice(p, t).value <= Dice(p', t').value <==> Iou(p, t).value <= Iou(p', t').value
  {
    DiceIsFunctionOfIou(p, t);
    DiceIsFunctionOfIou(p', t');
    DiceGrows(Iou(p, t).value, Iou(p', t').value);
  }

  // ---- the Hausdorff distance -------------------------------------------------------------------

  function Abs(x: real): real {
    if x < 0.0 then -x else x
  }

  function Least(x: real, y: real): real {
    if x <= y then x else y
  }

  function Most(x: real, y: real): real {
    if x <= y then y else x
  }

  /** The distance from a point to the nearest point of a set. */
  function Nearest(x: real, b: seq<real>): real
    requires b != []
  {
    if |b| == 1 then Abs(x - b[0]) else Least(Abs(x - b[0]), Nearest(x, b[1..]))
  }

  function Directed(a: seq<real>, b: seq<real>): real
    requires a != [] && b != []
  {
    if |a| == 1 then Nearest(a[0], b) else Most(Nearest(a[0], b), Directed(a[1..], b))
  }

  function Hausdorff(a: seq<real>, b: seq<real>): Num {
    if a == [] || b == [] then Infinite
    else Finite(Most(Directed(a, b), Directed(b, a)))
  }

  predicate Near(x: real, b: seq<real>, r: real) {
    exists j :: 0 <= j < |b| && b[j] - r <= x <= b[j] + r
  }

  /** Every point of one set has a point of the other within r. */
  predicate Within(a: seq<real>, b: seq<real>, r: real) {
    forall i :: 0 <= i < |a| ==> Near(a[i], b, r)
  }

  lemma {:induction false} NearestIsLeast(x: real, b: seq<real>, r: real)
    requires b != []
    ensures Nearest(x, b) <= r <==> Near(x, b, r)
  {
    if |b| > 1 {
      NearestIsLeast(x, b[1..], r);
      if Near(x, b[1..], r) {
        var j :| 0 <= j < |b[1..]| && b[1..][j] - r <= x <= b[1..][j] + r;
        assert b[j + 1] - r <= x <= b[j + 1] + r;
      }
      if Near(x, b, r) && !(Abs(x - b[0]) <= r) {
        var j :| 0 <= j < |b| && b[j] - r <= x <= b[j] + r;
        assert b[1..][j - 1] == b[j];
      }
    }
  }

  lemma {:induction false} DirectedIsLeast(a: seq<real>, b: seq<real>, r: real)
    requires a != [] && b != []
    ensures Directed(a, b) <= r <==> Within(a, b, r)
  {
    NearestIsLeast(a[0], b, r);
    if |a| > 1 {
      DirectedIsLeast(a[1..], b, r);
      assert Within(a, b, r) <==> Near(a[0], b, r) && Within(a[1..], b, r) by {
        assert forall i :: 0 < i < |a| ==> a[i] == a[1..][i - 1];
      }
    }
  }

  /** The distance is the least r with every point of each set within r of the other; it is
      infinite exactly when a set is empty. */
  lemma HausdorffIsLeast(a: seq<real>, b: seq<real>, r: real)
    ensures Hausdorff(a, b).Infinite? <==> a == [] || b == []
    ensures Hausdorff(a, b).Finite? ==>
              (Hausdorff(a, b).value <= r <==> Within(a, b, r) && Within(b, a, r))
  {
    if a != [] && b != [] {
      DirectedIsLeast(a, b, r);
      DirectedIsLeast(b, a, r);
    }
  }

  lemma WithinSelfSet(a: seq<real>, b: seq<real>)
    ensures Within(a, b, 0.0) <==> forall x :: x in a ==> x in b
  {
    if Within(a, b, 0.0) {
      forall x | x in a ensures x in b {
        var i :| 0 <= i < |a| && a[i] == x;
        assert Near(a[i], b, 0.0);
        var j :| 0 <= j < |b| && b[j] - 0.0 <= a[i] <= b[j] + 0.0;
        assert b[j] == x;
      }
    }
    if forall x :: x in a ==> x in b {
      forall i | 0 <= i < |a| ensures Near(a[i], b, 0.0) {
        assert a[i] in b;
        var j :| 0 <= j < |b| && b[j] == a[i];
        assert b[j] - 0.0 <= a[i] <= b[j] + 0.0;
      }
    }
  }

  lemma WithinTriangle(a: seq<real>, b: seq<real>, c: seq<real>, r: real, q: real)
    requires Within(a, b, r) && Within(b, c, q)
    ensures Within(a, c, r + q)
  {
    forall i | 0 <= i < |a| ensures Near(a[i], c, r + q) {
      assert Near(a[i], b, r);
      var j :| 0 <= j < |b| && b[j] - r <= a[i] <= b[j] + r;
      assert Near(b[j], c, q);
      var k :| 0 <= k < |c| && c[k] - q <= b[j] <= c[k] + q;
      assert c[k] - (r + q) <= a[i] <= c[k] + (r + q);
    }
  }

  lemma DirectedNotNegative(a: seq<real>, b: seq<real>)
    requires a != [] && b != []
    ensures Directed(a, b) >= 0.0
  {
    var r := Directed(a, b);
    DirectedIsLeast(a, b, r);
    assert Near(a[0], b, r);
  }

  /** On non-empty point sets the distance is a metric of their value sets. */
  lemma HausdorffIsMetric(a: seq<real>, b: seq<real>, c: seq<real>)
    requires a != [] && b != [] && c != []
    ensures Hausdorff(a, b) == Hausdorff(b, a)
    ensures Hausdorff(a, b).value >= 0.0
    ensures Hausdorff(a, b).value == 0.0 <==> forall x :: x in a <==> x in b
    ensures Hausdorff(a, c).value <= Hausdorff(a, b).value + Hausdorff(b, c).value
  {
    hide Within, Near, Directed, Nearest;
    DirectedNotNegative(a, b);
    HausdorffIsLeast(a, b, 0.0);
    WithinSelfSet(a, b);
    WithinSelfSet(b, a);
    var ab, bc := Hausdorff(a, b).value, Hausdorff(b, c).value;
    HausdorffIsLeast(a, b, ab);
    HausdorffIsLeast(b, c, bc);
    WithinTriangle(a, b, c, ab, bc);
    WithinTriangle(c, b, a, bc, ab);
    HausdorffIsLeast(a, c, ab + bc);
  }
}
