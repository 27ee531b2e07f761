/** The three independently defined point shapes and the LatLonPoint capability.
    Each shape is a Go struct with value semantics, so each is a Dafny datatype.
    A Go interface value of type LatLonPoint holds one of the three shapes; here it
    is a sum type whose accessors dispatch on the shape it wraps. */
module Points {

  /** A Go `[2]float64`: exactly two coordinates. */
  type Coordinates = s: seq<real> | |s| == 2 witness [0.0, 0.0]

  /** Altitude-bearing point. The altitude is optional data that no accessor reads. */
  datatype KmlPoint = KmlPoint(latitude: real, longitude: real, altitude: real)
  {
    function GetLatitude(): real { latitude }
    function GetLongitude(): real { longitude }
  }

  /** Plain point, already laid out like the capability. */
  datatype GeoPoint = GeoPoint(latitude: real, longitude: real)
  {
    function GetLatitude(): real { latitude }
    function GetLongitude(): real { longitude }
  }

  /** Annotated point: a positional coordinate pair and free-form properties.
      A nil Go map reads like an empty one, so both are the empty map here. */
  datatype GeoJsonPoint = GeoJsonPoint(latLon: Coordinates, properties: map<string, string>)
  {
    /** Position 0 of the pair is the latitude. */
    function GetLatitude(): real { latLon[0] }
    /** Position 1 of the pair is the longitude. */
    function GetLongitude(): real { latLon[1] }
  }

  /** A value of the LatLonPoint interface: any of the three shapes. */
  datatype LatLonPoint =
    | Kml(kml: KmlPoint)
    | Geo(geo: GeoPoint)
    | GeoJson(geoJson: GeoJsonPoint)
  {
    function GetLatitude(): real {
      match this
      case Kml(p) => p.GetLatitude()
      case Geo(p) => p.GetLatitude()
      case GeoJson(p) => p.GetLatitude()
    }

    function GetLongitude(): real {
      match this
      case Kml(p) => p.GetLongitude()
      case Geo(p) => p.GetLongitude()
      case GeoJson(p) => p.GetLongitude()
    }
  }

  /** A KmlPoint reports its own latitude and longitude, whatever its altitude,
      both directly and through the interface. */
  lemma KmlAccessors(lat: real, lon: real, alt: real)
    ensures KmlPoint(lat, lon, alt).GetLatitude() == lat
    ensures KmlPoint(lat, lon, alt).GetLongitude() == lon
    ensures Kml(KmlPoint(lat, lon, alt)).GetLatitude() == lat
    ensures Kml(KmlPoint(lat, lon, alt)).GetLongitude() == lon
  {
  }

  /** Changing the altitude of a KmlPoint changes neither accessor. */
  lemma KmlAltitudeIgnored(p: KmlPoint, alt: real)
    ensures p.(altitude := alt).GetLatitude() == p.GetLatitude()
    ensures p.(altitude := alt).GetLongitude() == p.GetLongitude()
  {
  }

  /** A GeoPoint's accessors are its two fields, directly and through the interface. */
  lemma GeoAccessors(lat: real, lon: real)
    ensures GeoPoint(lat, lon).GetLatitude() == lat
    ensures GeoPoint(lat, lon).GetLongitude() == lon
    ensures Geo(GeoPoint(lat, lon)).GetLatitude() == lat
    ensures Geo(GeoPoint(lat, lon)).GetLongitude() == lon
  {
  }

  /** A GeoJsonPoint maps position 0 to latitude and position 1 to longitude,
      whatever its properties hold, the empty map included. */
  lemma GeoJsonAccessors(c: Coordinates, props: map<string, string>)
    ensures GeoJsonPoint(c, props).GetLatitude() == c[0]
    ensures GeoJsonPoint(c, props).GetLongitude() == c[1]
    ensures GeoJson(GeoJsonPoint(c, props)).GetLatitude() == c[0]
    ensures GeoJson(GeoJsonPoint(c, props)).GetLongitude() == c[1]
    ensures GeoJsonPoint(c, map[]).GetLatitude() == c[0]
    ensures GeoJsonPoint(c, map[]).GetLongitude() == c[1]
  {
  }

  /** Replacing the properties of a GeoJsonPoint changes neither accessor. */
  lemma GeoJsonPropertiesIgnored(p: GeoJsonPoint, props: map<string, string>)
    ensures p.(properties := props).GetLatitude() == p.GetLatitude()
    ensures p.(properties := props).GetLongitude() == p.GetLongitude()
  {
  }
}
