/** The aggregator: the mean latitude and mean longitude of a sequence of
    LatLonPoint values, computed in one pass through the two accessors only.
    Sums are exact reals: with finite coordinates the quotient by a positive count
    is Finite, and a zero count gives IEEE 754 division by zero. */
module Aggregation {
  import opened Points

  /** The float64 values a quotient of exact sums can take. */
  datatype Float64 = Finite(value: real) | NaN | PosInf | NegInf

  /** `x / float64(n)`: the exact quotient for a positive count; IEEE 754
      division by positive zero for an empty one. The aggregator divides by a zero
      count only when its total is the empty sum 0.0, so from there only NaN arises;
      the two infinities complete the IEEE rule and no path of the aggregator yields them. */
  function Divide(x: real, n: nat): (r: Float64)
    ensures r.Finite? <==> n > 0
    ensures r.Finite? ==> r.value * (n as real) == x
    ensures n == 0 ==> (r == NaN <==> x == 0.0) && (r == PosInf <==> x > 0.0)
  {
    if n > 0 then Finite(x / (n as real))
    else if x == 0.0 then NaN
    else if x > 0.0 then PosInf
    else NegInf
  }

  /** Which of the two accessors of the capability is meant. */
  datatype Axis = Latitude | Longitude

  /** The accessor for `axis`: the only way the aggregator looks at a point. */
  function Coordinate(p: LatLonPoint, axis: Axis): real {
    match axis
    case Latitude => p.GetLatitude()
    case Longitude => p.GetLongitude()
  }

  /** Sum of the `axis` coordinates of `ps`, accumulated front to back as the loop does. */
  function Total(ps: seq<LatLonPoint>, axis: Axis): real
    decreases |ps|
  {
    if ps == [] then 0.0
    else Total(ps[..|ps| - 1], axis) + Coordinate(ps[|ps| - 1], axis)
  }

  /** The centroid the aggregator promises: each total divided by the count. */
  function Average(ps: seq<LatLonPoint>): (Float64, Float64) {
    (Divide(Total(ps, Latitude), |ps|), Divide(Total(ps, Longitude), |ps|))
  }

  /** One pass over `points`, keeping running totals, then one division per axis.
      The input is a value and there is no modifies clause: no point is changed. */
  method AveragePoint(points: seq<LatLonPoint>) returns (lat: Float64, lon: Float64)
    ensures (lat, lon) == Average(points)
    ensures |points| > 0 ==>
              lat == Finite(Total(points, Latitude) / (|points| as real)) &&
              lon == Finite(Total(points, Longitude) / (|points| as real))
    ensures |points| == 0 ==> lat == NaN && lon == NaN
  {
    var totalLat, totalLon := 0.0, 0.0;
    var i := 0;
    while i < |points|
      invariant 0 <= i <= |points|
      invariant totalLat == Total(points[..i], Latitude)
      invariant totalLon == Total(points[..i], Longitude)
    {
      assert points[..i + 1][..i] == points[..i];
      totalLat := totalLat + points[i].GetLatitude();
      totalLon := totalLon + points[i].GetLongitude();
      i := i + 1;
    }
    assert points[..i] == points;
    lat := Divide(totalLat, |points|);
    lon := Divide(totalLon, |points|);
  }

  /** The total of a concatenation is the sum of the totals. */
  lemma {:induction false} TotalAppend(ps: seq<LatLonPoint>, qs: seq<LatLonPoint>, axis: Axis)
    ensures Total(ps + qs, axis) == Total(ps, axis) + Total(qs, axis)
    decreases |qs|
  {
    if qs == [] {
      assert ps + qs == ps;
    } else {
      var front := qs[..|qs| - 1];
      assert (ps + qs)[..|ps + qs| - 1] == ps + front;
      TotalAppend(ps, front, axis);
    }
  }

  /** Reordering the input does not change either total. */
  lemma {:induction false} TotalPermutation(ps: seq<LatLonPoint>, qs: seq<LatLonPoint>, axis: Axis)
    requires multiset(ps) == multiset(qs)
    ensures Total(ps, axis) == Total(qs, axis)
    decreases |ps|
  {
    if ps == [] {
      assert |qs| == |multiset(qs)| == 0;
    } else {
      var n := |ps| - 1;
      var x := ps[n];
      assert ps == ps[..n] + [x];
      assert x in multiset(qs);
      var j :| 0 <= j < |qs| && qs[j] == x;
      var rest := qs[..j] + qs[j + 1..];
      assert qs == qs[..j] + [x] + qs[j + 1..];
      assert multiset(ps[..n]) == multiset(rest) by {
        assert multiset(ps) == multiset(ps[..n]) + multiset{x};
        assert multiset(qs) == multiset(qs[..j]) + multiset{x} + multiset(qs[j + 1..]);
        assert multiset(rest) == multiset(qs[..j]) + multiset(qs[j + 1..]);
        assert multiset(ps[..n]) == multiset(ps) - multiset{x};
        assert multiset(rest) == multiset(qs) - multiset{x};
      }
      TotalPermutation(ps[..n], rest, axis);
      TotalAppend(qs[..j] + [x], qs[j + 1..], axis);
      TotalAppend(qs[..j], [x], axis);
      TotalAppend(qs[..j], qs[j + 1..], axis);
      assert [x][..0] == [];
    }
  }

  /** The centroid is unchanged by reordering the input. */
  lemma AveragePermutation(ps: seq<LatLonPoint>, qs: seq<LatLonPoint>)
    requires multiset(ps) == multiset(qs)
    ensures Average(ps) == Average(qs)
  {
    assert |ps| == |multiset(ps)| == |multiset(qs)| == |qs|;
    TotalPermutation(ps, qs, Latitude);
    TotalPermutation(ps, qs, Longitude);
  }

  /** The totals depend on each point only through its accessor for the axis. */
  lemma {:induction false} TotalShapeAgnostic(ps: seq<LatLonPoint>, qs: seq<LatLonPoint>, axis: Axis)
    requires |ps| == |qs|
    requires forall i :: 0 <= i < |ps| ==> Coordinate(ps[i], axis) == Coordinate(qs[i], axis)
    ensures Total(ps, axis) == Total(qs, axis)
    decreases |ps|
  {
    if ps != [] {
      var n := |ps| - 1;
      TotalShapeAgnostic(ps[..n], qs[..n], axis);
    }
  }

  /** Two inputs whose points agree pointwise on latitude and longitude have the
      same centroid, whichever shapes their points are. */
  lemma AverageShapeAgnostic(ps: seq<LatLonPoint>, qs: seq<LatLonPoint>)
    requires |ps| == |qs|
    requires forall i :: 0 <= i < |ps| ==>
               ps[i].GetLatitude() == qs[i].GetLatitude() && ps[i].GetLongitude() == qs[i].GetLongitude()
    ensures Average(ps) == Average(qs)
  {
    TotalShapeAgnostic(ps, qs, Latitude);
    TotalShapeAgnostic(ps, qs, Longitude);
  }

  /** The centroid of one point is that point's own latitude and longitude. */
  lemma AverageSingleton(p: LatLonPoint)
    ensures Average([p]) == (Finite(p.GetLatitude()), Finite(p.GetLongitude()))
  {
    assert [p][..0] == [];
    assert Total([p], Latitude) == p.GetLatitude();
    assert Total([p], Longitude) == p.GetLongitude();
  }

  /** With no points both quotients are 0/0, which is NaN. */
  lemma AverageEmpty()
    ensures Average([]) == (NaN, NaN)
  {
  }

  /** The sample data of the demo: one point of each shape. */
  lemma AverageOfDemoPoints()
    ensures Average([Kml(KmlPoint(1.0, 2.0, 1.4)), Geo(GeoPoint(2.2, 2.3)),
                     GeoJson(GeoJsonPoint([2.4, 0.2], map[]))])
         == (Finite(5.6 / 3.0), Finite(1.5))
  {
    var ps := [Kml(KmlPoint(1.0, 2.0, 1.4)), Geo(GeoPoint(2.2, 2.3)),
               GeoJson(GeoJsonPoint([2.4, 0.2], map[]))];
    assert ps[..1][..0] == [];
    assert ps[..2][..1] == ps[..1];
    assert ps[..|ps| - 1] == ps[..2];
    assert Total(ps[..1], Latitude) == 1.0 && Total(ps[..1], Longitude) == 2.0;
    assert Total(ps[..2], Latitude) == 1.0 + 2.2 && Total(ps[..2], Longitude) == 2.0 + 2.3;
    assert Total(ps, Latitude) == 1.0 + 2.2 + 2.4;
    assert Total(ps, Longitude) == 2.0 + 2.3 + 0.2;
  }
}
