# Centroid of heterogeneous geo points

A model of the point-abstraction layer of `src/Docs/structural.go`. It has three point
shapes that know nothing of one another:

- `KmlPoint`: latitude, longitude and an altitude nobody reads.
- `GeoPoint`: latitude and longitude.
- `GeoJsonPoint`: a two-element coordinate array plus a string-to-string properties map.

Each shape gets `getLatitude`/`getLongitude` accessors, so each satisfies the `LatLonPoint`
interface. The aggregator `averagePoint` takes one pass over a slice of interface values and
returns the mean latitude and the mean longitude.

- `points.dfy` (module `Points`): the three shapes as datatypes with their accessors.
  `LatLonPoint` is a sum type over the three. Its accessors match on the wrapped shape,
  which is how Go's interface dispatch behaves.
- `aggregation.dfy` (module `Aggregation`):
  - `Total(ps, axis)` is the specification of the running sum. It adds front to back, in
    the same order as the loop.
  - `Average` divides each total by the count.
  - `Divide` models `x / float64(n)`. For a positive count it gives the exact quotient. For
    a zero count it follows IEEE 754 division by zero: NaN for 0/0, otherwise an infinity
    with the dividend's sign. The aggregator divides by zero only with the empty total 0.0,
    so only NaN arises from it; the infinities are never produced on its path.
  - `AveragePoint` is the imperative loop with running totals `totalLat`/`totalLon`, proved
    against `Average`.

Coordinates are exact `real`s. The model therefore states the arithmetic the code intends,
not float64 rounding.

The code has no guard for an empty slice: it divides `0.0` by `float64(0)`, which yields NaN
for both coordinates. `AveragePoint` accepts every sequence and `AverageEmpty` states the NaN
result.

## Model

| member | source | states |
|---|---|---|
| Points.KmlAccessors | src/Docs/structural.go:35-41 | a `KmlPoint` built from (lat, lon, alt) reports exactly lat and lon, both read directly and through the interface value, whatever alt is |
| Points.KmlAltitudeIgnored | src/Docs/structural.go:8-13 | replacing a `KmlPoint`'s altitude changes neither its latitude nor its longitude |
| Points.GeoAccessors | src/Docs/structural.go:43-49 | a `GeoPoint`'s accessors are its two fields, both read directly and through the interface value |
| Points.GeoJsonAccessors | src/Docs/structural.go:51-57 | a `GeoJsonPoint` reports position 0 of its pair as latitude and position 1 as longitude, for any properties map and for the empty one |
| Points.GeoJsonPropertiesIgnored | src/Docs/structural.go:19-22 | replacing a `GeoJsonPoint`'s properties changes neither accessor |
| Aggregation.Divide | src/Docs/structural.go:68 | the quotient is finite exactly when the count is positive, and then times the count gives back the dividend; with a zero count it is NaN exactly for a zero dividend and +Inf exactly for a positive one |
| Aggregation.AveragePoint | src/Docs/structural.go:62-69 | after the loop, the totals are the sums of all latitudes and all longitudes (loop invariant: after i points, the sums of the first i). The result is each total divided by len(points). For a non-empty input that is the finite mean; for an empty input both values are NaN. The input is only read |
| Aggregation.TotalAppend | src/Docs/structural.go:64-67 | the accumulated total of a concatenation is the sum of the two parts' totals |
| Aggregation.TotalPermutation | src/Docs/structural.go:64-67 | any reordering of the input (equal multisets) gives the same total |
| Aggregation.AveragePermutation | src/Docs/structural.go:62-68 | the centroid is unchanged by reordering the input |
| Aggregation.TotalShapeAgnostic | src/Docs/structural.go:64-67 | the total depends on each element only through its accessor for that axis |
| Aggregation.AverageShapeAgnostic | src/Docs/structural.go:62-68 | two inputs whose elements agree pointwise on getLatitude/getLongitude have the same centroid, whatever shapes the elements are |
| Aggregation.AverageSingleton | src/Docs/structural.go:62-68 | the centroid of a one-element input is that element's own (latitude, longitude) |
| Aggregation.AverageEmpty | src/Docs/structural.go:68 | an empty input gives (NaN, NaN), because both quotients are 0/0 |
| Aggregation.AverageOfDemoPoints | src/Docs/structural.go:75-79 | the demo data gives latitude (1.0 + 2.2 + 2.4) / 3 and longitude (2.0 + 2.3 + 0.2) / 3 = 1.5, in exact arithmetic |

## Left out

- `main` (src/Docs/structural.go:74-80) is left out as I/O: it builds the demo slice and prints
  the result. Only its data is used, in `AverageOfDemoPoints`.
- float64 rounding is left out. Sums and quotients are exact reals, so a float64 result may
  differ from the model by rounding. Overflow to infinity is also not modelled; the infinities
  of `Divide` arise only from division by zero.
- A nil `LatLonPoint` element is not modelled: the sum type has no nil case. In Go, calling
  `getLatitude` on a nil interface value in the loop (src/Docs/structural.go:65) panics.
- NaN and infinite coordinates are not modelled: every coordinate is a finite real. In Go a
  non-empty slice holding such a coordinate gives a NaN or infinite mean at
  src/Docs/structural.go:68, where `AveragePoint` promises a `Finite` value.
- Go's dynamic interface dispatch is modelled as a sum type matched by constructor. This
  gives the same calls on the same shapes, but without open extension by new types.
- The contents of the properties map are not modelled. No code reads the map. A nil map and
  an empty map read alike, so both are the empty map here.
- Aliasing of the slice is not modelled. The slice is a sequence value, so "the input is
  unchanged" holds by construction rather than by a frame proof.
