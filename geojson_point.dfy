/**
  The Point shape the serializer accepts, stated on its own, and the
  theorems that tie the serializer's validator to it: which values it
  accepts, which single error it reports otherwise, and that it hands an
  accepted value back unchanged.

  The shape follows the Point geometry of section 3.1.2 of RFC 7946 and the
  longitude-then-latitude order of section 3.1.1, with two departures: the
  RFC lets a position carry further elements, an altitude among them, while
  the serializer demands exactly two; and the RFC's positions hold JSON
  numbers only, while the serializer also takes booleans, as 1 and 0.
 */
module GeoJsonPoint {
  import opened JsonValues
  import opened GeoPointSerializer

  /** The member `key` of `v`, when `v` is an object that has one. */
  function Member(v: Json, key: string): Option<Json> {
    if v.JObject? && key in v.members then Some(v.members[key]) else None
  }

  /** The elements of the "coordinates" member, when it is an array. */
  function Position(v: Json): Option<seq<Json>> {
    match Member(v, "coordinates")
    case Some(JArray(xs)) => Some(xs)
    case _ => None
  }

  /** The first element of a two-element position, read as a number. */
  function Longitude(v: Json): Option<real> {
    match Position(v)
    case Some(xs) => if |xs| == 2 then NumericValue(xs[0]) else None
    case None => None
  }

  /** The second element of a two-element position, read as a number. */
  function Latitude(v: Json): Option<real> {
    match Position(v)
    case Some(xs) => if |xs| == 2 then NumericValue(xs[1]) else None
    case None => None
  }

  predicate InRange(x: Option<real>, lo: real, hi: real) {
    x.Some? && lo <= x.value <= hi
  }

  /**
    The accepted Point shape: "type" is the string "Point" and
    "coordinates" is one position of exactly two numbers, longitude in
    [-180, 180] and then latitude in [-90, 90].
   */
  predicate IsAcceptedPoint(v: Json) {
    && Member(v, "type") == Some(JString("Point"))
    && Position(v).Some?
    && |Position(v).value| == 2
    && InRange(Longitude(v), MinLongitude, MaxLongitude)
    && InRange(Latitude(v), MinLatitude, MaxLatitude)
  }

  /** The place of each check in the order in which the validator runs them. */
  function Rank(e: ValidationError): nat {
    match e
    case NotAnObject => 0
    case MissingType => 1
    case MissingCoordinates => 2
    case NotPointType => 3
    case CoordinatesNotArray => 4
    case WrongLength => 5
    case NotNumbers => 6
    case LongitudeOutOfRange => 7
    case LatitudeOutOfRange => 8
  }

  /** The requirement on `v` whose violation is reported as `e`. */
  predicate Meets(e: ValidationError, v: Json) {
    match e
    case NotAnObject => v.JObject?
    case MissingType => Member(v, "type").Some?
    case MissingCoordinates => Member(v, "coordinates").Some?
    case NotPointType => Member(v, "type") == Some(JString("Point"))
    case CoordinatesNotArray => Position(v).Some?
    case WrongLength => Position(v).Some? && |Position(v).value| == 2
    case NotNumbers => Longitude(v).Some? && Latitude(v).Some?
    case LongitudeOutOfRange => InRange(Longitude(v), MinLongitude, MaxLongitude)
    case LatitudeOutOfRange => InRange(Latitude(v), MinLatitude, MaxLatitude)
  }

  /** A Point object holding `position` as its coordinates and nothing else. */
  function PointValue(position: seq<Json>): Json {
    JObject(map["type" := JString("Point"), "coordinates" := JArray(position)])
  }

  /** `m` has "type" set to the string "Point" and "coordinates" set to `c`. */
  predicate PointMembers(m: map<string, Json>, c: Json) {
    "type" in m && m["type"] == JString("Point") && "coordinates" in m && m["coordinates"] == c
  }

  /** Meeting every requirement is the same as having the accepted Point shape. */
  lemma RequirementsDefinePoint(v: Json)
    ensures (forall e :: Meets(e, v)) <==> IsAcceptedPoint(v)
  {
    if IsAcceptedPoint(v) {
      forall e ensures Meets(e, v) {
        match e
        case NotAnObject =>
        case MissingType =>
        case MissingCoordinates =>
        case NotPointType =>
        case CoordinatesNotArray =>
        case WrongLength =>
        case NotNumbers =>
        case LongitudeOutOfRange =>
        case LatitudeOutOfRange =>
      }
    } else {
      assert !Meets(NotPointType, v) || !Meets(WrongLength, v)
        || !Meets(LongitudeOutOfRange, v) || !Meets(LatitudeOutOfRange, v);
    }
  }

  /** The validator accepts exactly the values of the accepted Point shape. */
  lemma ValidateAcceptsExactlyPoints(v: Json)
    ensures ValidateCoordinates(v).Success? <==> IsAcceptedPoint(v)
  {
  }

  /** An accepted value comes back as it was given. */
  lemma ValidateReturnsPointUnchanged(v: Json)
    requires IsAcceptedPoint(v)
    ensures ValidateCoordinates(v) == Success(v)
  {
    ValidateAcceptsExactlyPoints(v);
  }

  /**
    Error precedence: the validator reports `e` exactly when the requirement
    of `e` is unmet and every requirement checked before it is met.
   */
  lemma ValidateReportsFirstUnmet(v: Json, e: ValidationError)
    ensures ValidateCoordinates(v) == Failure(e)
        <==> !Meets(e, v) && forall d :: Rank(d) < Rank(e) ==> Meets(d, v)
  {
    var r := ValidateCoordinates(v);
    if r == Failure(e) {
      forall d | Rank(d) < Rank(e) ensures Meets(d, v) {
        match d
        case NotAnObject =>
        case MissingType =>
        case MissingCoordinates =>
        case NotPointType =>
        case CoordinatesNotArray =>
        case WrongLength =>
        case NotNumbers =>
        case LongitudeOutOfRange =>
        case LatitudeOutOfRange =>
      }
    }
    if !Meets(e, v) && forall d :: Rank(d) < Rank(e) ==> Meets(d, v) {
      match e
      case NotAnObject =>
      case MissingType => assert Meets(NotAnObject, v);
      case MissingCoordinates =>
        assert Meets(NotAnObject, v) && Meets(MissingType, v);
      case NotPointType =>
        assert Meets(NotAnObject, v) && Meets(MissingType, v) && Meets(MissingCoordinates, v);
      case CoordinatesNotArray =>
        assert Meets(MissingCoordinates, v) && Meets(NotPointType, v);
      case WrongLength =>
        assert Meets(NotPointType, v) && Meets(CoordinatesNotArray, v);
      case NotNumbers =>
        assert Meets(NotPointType, v) && Meets(WrongLength, v);
      case LongitudeOutOfRange =>
        assert Meets(NotPointType, v) && Meets(WrongLength, v) && Meets(NotNumbers, v);
      case LatitudeOutOfRange =>
        assert Meets(NotPointType, v) && Meets(WrongLength, v) && Meets(NotNumbers, v);
        assert Meets(LongitudeOutOfRange, v);
    }
  }

  /** A value that is not an object fails the first check, whatever it holds. */
  lemma NonObjectRejectedFirst(v: Json)
    requires !v.JObject?
    ensures ValidateCoordinates(v) == Failure(NotAnObject)
  {
  }

  /** A missing "type" is reported even when "coordinates" is missing too. */
  lemma MissingTypeReportedFirst(m: map<string, Json>)
    requires "type" !in m
    ensures ValidateCoordinates(JObject(m)) == Failure(MissingType)
  {
  }

  /** A missing "coordinates" is reported before the value of "type" is looked at. */
  lemma MissingCoordinatesBeforeTypeValue(m: map<string, Json>)
    requires "type" in m && "coordinates" !in m
    ensures ValidateCoordinates(JObject(m)) == Failure(MissingCoordinates)
  {
  }

  /** Any "type" other than the string "Point" is refused, whatever the coordinates. */
  lemma OnlyPointTypeAccepted(m: map<string, Json>)
    requires "type" in m && "coordinates" in m
    requires m["type"] != JString("Point")
    ensures ValidateCoordinates(JObject(m)) == Failure(NotPointType)
  {
  }

  /** Coordinates that are not an array are refused before their length is checked. */
  lemma CoordinatesMustBeArray(m: map<string, Json>, c: Json)
    requires PointMembers(m, c) && !c.JArray?
    ensures ValidateCoordinates(JObject(m)) == Failure(CoordinatesNotArray)
  {
  }

  /**
    A position of any length other than two is refused before its elements
    are read; this includes a position that adds an altitude.
   */
  lemma PositionHasTwoElements(m: map<string, Json>, position: seq<Json>)
    requires PointMembers(m, JArray(position)) && |position| != 2
    ensures ValidateCoordinates(JObject(m)) == Failure(WrongLength)
  {
  }

  /**
    The numeric check: with a two-element position, the not-numbers error is
    reported exactly when an element is neither a number nor a boolean,
    whatever the other element and before any range check.
   */
  lemma NonNumericBeforeRange(m: map<string, Json>, lon: Json, lat: Json)
    requires PointMembers(m, JArray([lon, lat]))
    ensures ValidateCoordinates(JObject(m)) == Failure(NotNumbers)
        <==> !(lon.JNumber? || lon.JBool?) || !(lat.JNumber? || lat.JBool?)
  {
  }

  /** Booleans pass the numeric check, as 1 and 0, and so are accepted as degrees. */
  lemma BooleansPassAsNumbers(m: map<string, Json>, a: bool, b: bool)
    requires PointMembers(m, JArray([JBool(a), JBool(b)]))
    ensures ValidateCoordinates(JObject(m)) == Success(JObject(m))
  {
  }

  /**
    A numeric position is accepted exactly when the first number is a
    longitude in [-180, 180] and the second a latitude in [-90, 90], both
    ends included.
   */
  lemma NumericPositionAcceptedIffInRange(m: map<string, Json>, x: real, y: real)
    requires PointMembers(m, JArray([JNumber(x), JNumber(y)]))
    ensures ValidateCoordinates(JObject(m)).Success?
        <==> -180.0 <= x <= 180.0 && -90.0 <= y <= 90.0
  {
  }

  /**
    An out-of-range longitude is reported whatever the numeric latitude
    (a number or a boolean, in range or not). A latitude that is not numeric
    is reported first instead, as NonNumericBeforeRange states.
   */
  lemma LongitudeCheckedBeforeLatitude(m: map<string, Json>, x: real, lat: Json)
    requires PointMembers(m, JArray([JNumber(x), lat]))
    requires lat.JNumber? || lat.JBool?
    requires x < -180.0 || 180.0 < x
    ensures ValidateCoordinates(JObject(m)) == Failure(LongitudeOutOfRange)
  {
  }

  /** With the longitude in range, an out-of-range latitude is reported. */
  lemma LatitudeRangeChecked(m: map<string, Json>, x: real, y: real)
    requires PointMembers(m, JArray([JNumber(x), JNumber(y)]))
    requires -180.0 <= x <= 180.0
    requires y < -90.0 || 90.0 < y
    ensures ValidateCoordinates(JObject(m)) == Failure(LatitudeOutOfRange)
  {
  }

  /**
    An example of why the order of a position matters: longitude comes
    first, so an accepted position can be refused once its numbers are swapped.
   */
  lemma PositionOrderMatters()
    ensures ValidateCoordinates(PointValue([JNumber(100.0), JNumber(50.0)])).Success?
    ensures ValidateCoordinates(PointValue([JNumber(50.0), JNumber(100.0)])) == Failure(LatitudeOutOfRange)
  {
  }

  /**
    Members other than "type" and "coordinates" play no part in the verdict:
    adding or replacing one neither changes acceptance nor the error reported.
   */
  lemma OtherMembersIgnored(m: map<string, Json>, key: string, x: Json)
    requires key != "type" && key != "coordinates"
    ensures ValidateCoordinates(JObject(m[key := x])).Success? == ValidateCoordinates(JObject(m)).Success?
    ensures ValidateCoordinates(JObject(m)).Failure?
        ==> ValidateCoordinates(JObject(m[key := x])) == ValidateCoordinates(JObject(m))
  {
  }

  /** The inputs of the serializer's test suite and the errors it expects. */
  lemma SerializerTestCases()
    ensures ValidateCoordinates(PointValue([JNumber(37.6173), JNumber(55.7558)])).Success?
    ensures ValidateCoordinates(JString("not a dict")) == Failure(NotAnObject)
    ensures ValidateCoordinates(JObject(map["coordinates" := JArray([JNumber(10.0), JNumber(20.0)])]))
         == Failure(MissingType)
    ensures ValidateCoordinates(JObject(map["type" := JString("Point")])) == Failure(MissingCoordinates)
    ensures ValidateCoordinates(JObject(map["type" := JString("Polygon"),
              "coordinates" := JArray([JArray([JArray([JNumber(0.0), JNumber(0.0)]),
                                               JArray([JNumber(1.0), JNumber(1.0)])])])]))
         == Failure(NotPointType)
    ensures ValidateCoordinates(JObject(map["type" := JString("Point"), "coordinates" := JString("not an array")]))
         == Failure(CoordinatesNotArray)
    ensures ValidateCoordinates(PointValue([JNumber(10.0)])) == Failure(WrongLength)
    ensures ValidateCoordinates(PointValue([JString("not-a-number"), JNumber(50.0)])) == Failure(NotNumbers)
    ensures ValidateCoordinates(PointValue([JNumber(50.0), JString("not-a-number")])) == Failure(NotNumbers)
    ensures ValidateCoordinates(PointValue([JNull, JNumber(50.0)])) == Failure(NotNumbers)
    ensures ValidateCoordinates(PointValue([JNumber(50.0), JArray([])])) == Failure(NotNumbers)
    ensures ValidateCoordinates(PointValue([JNumber(200.0), JNumber(50.0)])) == Failure(LongitudeOutOfRange)
    ensures ValidateCoordinates(PointValue([JNumber(50.0), JNumber(100.0)])) == Failure(LatitudeOutOfRange)
  {
  }
}
