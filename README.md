# GeoJSON Point validation of the geo-points API

The geo-points API stores named geographic points. A point's location
arrives as a GeoJSON Point: `{"type": "Point", "coordinates": [longitude,
latitude]}`. Section 3.1.2 of RFC 7946 defines the Point geometry, and
section 3.1.1 fixes a position's order as longitude first, then latitude.
Before a point is saved, the point serializer's `validate_coordinates` checks
the decoded JSON value. It runs nine guards in a fixed order:

1. the value is an object;
2. it has a "type" member;
3. it has a "coordinates" member;
4. "type" is the string "Point";
5. "coordinates" is an array;
6. that array has exactly two elements;
7. both elements are numbers;
8. the first one, the longitude, lies in [-180, 180];
9. the second one, the latitude, lies in [-90, 90].

Both ranges include their ends. The first guard that fails raises the only
error. When every guard passes, the value is returned unchanged.

The project has three modules:

- `JsonValues` (`json_values.dfy`) holds the decoded JSON value `Json`, the
  `Option` and `Result` wrappers, and `NumericValue`. `NumericValue` is
  Python's `isinstance(x, (int, float))` test. Python's `bool` is a subclass
  of `int`, so `true` and `false` pass this test and compare as 1 and 0.
- `GeoPointSerializer` (`serializers.dfy`) holds the validator
  `ValidateCoordinates`, with one `ValidationError` constructor per raise
  site. It also has `Message`, which gives each error its text exactly as the
  serializer words it.
- `GeoJsonPoint` (`geojson_point.dfy`) states on its own terms the Point
  shape the serializer accepts (`IsAcceptedPoint`), the requirement behind
  each error (`Meets`) and the order of the checks (`Rank`). It then proves
  the theorems that tie the validator to these definitions.

The accepted shape follows the Point geometry of section 3.1.2 of RFC 7946
and the longitude-first order of section 3.1.1, with two departures. First,
RFC 7946 lets a position carry more than two elements, for example an
altitude, but the serializer rejects any position that is not exactly two
elements long. Second, RFC 7946 positions hold JSON numbers only, but the
serializer also accepts booleans.

JSON numbers are exact `real` values. The validator only compares them
against integer bounds and never computes with them.

## Model

| member | source | states |
|---|---|---|
| GeoPointSerializer.ValidateCoordinates | geo_api/serializers.py:10-56 | a successful validation returns the input value unchanged |
| GeoPointSerializer.NotAnObjectMessagePhrase | geo_api/serializers.py:17 | the non-object error's message contains "JSON object", the phrase asserted at geo_api/tests.py:559 |
| GeoPointSerializer.MissingCoordinatesMessagePhrase | geo_api/serializers.py:23 | the missing-coordinates message contains "Missing 'coordinates' field", as asserted at geo_api/tests.py:584-586 |
| GeoPointSerializer.NotPointTypeMessagePhrase | geo_api/serializers.py:27 | the wrong-type message contains "Point", as asserted at geo_api/tests.py:602 |
| GeoPointSerializer.CoordinatesNotArrayMessagePhrase | geo_api/serializers.py:32 | the not-an-array message contains "array", as asserted at geo_api/tests.py:618 |
| GeoPointSerializer.WrongLengthMessagePhrase | geo_api/serializers.py:35-37 | the wrong-length message contains "exactly 2 values", as asserted at geo_api/tests.py:631 |
| GeoPointSerializer.NotNumbersMessagePhrase | geo_api/serializers.py:43 | the not-numbers message contains "must be numbers", as asserted at geo_api/tests.py:662 |
| GeoPointSerializer.LongitudeMessagePhrase | geo_api/serializers.py:47-49 | the longitude message contains "between -180 and 180", as asserted at geo_api/tests.py:678 |
| GeoPointSerializer.LatitudeMessagePhrase | geo_api/serializers.py:52-54 | the latitude message contains "between -90 and 90", as asserted at geo_api/tests.py:691 |
| GeoJsonPoint.RequirementsDefinePoint | geo_api/serializers.py:15-54 | meeting all nine check requirements is the same as having the accepted Point shape (object, type "Point", two numbers, longitude then latitude, each in range) |
| GeoJsonPoint.ValidateAcceptsExactlyPoints | geo_api/serializers.py:10-56 | the validator succeeds if and only if the value has the accepted Point shape |
| GeoJsonPoint.ValidateReturnsPointUnchanged | geo_api/serializers.py:56 | every value of the accepted Point shape is accepted and returned as given |
| GeoJsonPoint.ValidateReportsFirstUnmet | geo_api/serializers.py:15-54 | error precedence: error e is reported if and only if its requirement fails and every requirement checked before it holds |
| GeoJsonPoint.NonObjectRejectedFirst | geo_api/serializers.py:16-17 | any value that is not an object is rejected with the "must be a JSON object" error |
| GeoJsonPoint.MissingTypeReportedFirst | geo_api/serializers.py:20-21 | an object without "type" gets the missing-type error, even when "coordinates" is missing too |
| GeoJsonPoint.MissingCoordinatesBeforeTypeValue | geo_api/serializers.py:22-27 | an object with "type" but no "coordinates" gets the missing-coordinates error, whatever the value of "type" |
| GeoJsonPoint.OnlyPointTypeAccepted | geo_api/serializers.py:26-27 | when both members are present, any "type" other than the string "Point" is rejected, whatever the coordinates |
| GeoJsonPoint.CoordinatesMustBeArray | geo_api/serializers.py:30-32 | in any object whose "type" is "Point", coordinates that are not an array are rejected with the not-an-array error |
| GeoJsonPoint.PositionHasTwoElements | geo_api/serializers.py:34-37 | in any object whose "type" is "Point", a coordinates array whose length is not two gets the wrong-length error before its elements are read; this includes a three-element position with an altitude |
| GeoJsonPoint.NonNumericBeforeRange | geo_api/serializers.py:39-43 | in any object whose "type" is "Point" with a two-element position, the not-numbers error is reported if and only if an element is neither a number nor a boolean, whatever the other element is |
| GeoJsonPoint.BooleansPassAsNumbers | geo_api/serializers.py:42-54 | in any object whose "type" is "Point", a position of two booleans passes the numeric check and both range checks, so the object is accepted unchanged |
| GeoJsonPoint.NumericPositionAcceptedIffInRange | geo_api/serializers.py:46-54 | in any object whose "type" is "Point", a position of two numbers is accepted if and only if -180 <= longitude <= 180 and -90 <= latitude <= 90, ends included |
| GeoJsonPoint.LongitudeCheckedBeforeLatitude | geo_api/serializers.py:46-49 | in any object whose "type" is "Point", an out-of-range longitude gets the longitude error whatever the numeric latitude (a number or a boolean, in range or not); a non-numeric latitude gets the not-numbers error first |
| GeoJsonPoint.LatitudeRangeChecked | geo_api/serializers.py:51-54 | in any object whose "type" is "Point", with the longitude in range, an out-of-range latitude gets the latitude error |
| GeoJsonPoint.PositionOrderMatters | geo_api/serializers.py:39 | an illustration that element 0 is the longitude and element 1 the latitude: [100, 50] is accepted, while the swapped [50, 100] gets the latitude error |
| GeoJsonPoint.OtherMembersIgnored | geo_api/serializers.py:20-30 | adding or replacing a member other than "type" and "coordinates" changes neither acceptance nor the error reported |
| GeoJsonPoint.SerializerTestCases | geo_api/tests.py:533-691 | each input of the serializer's validation tests gets the expected verdict: the Moscow point is accepted, and each malformed input gets its error |

## Left out

- Radius search, the haversine distance and the search views: their source is not in the repository's files (`geo_api/views.py` lacks the views that `geo_api/urls.py` imports), and they rely on floating-point trigonometry.
- `geo_api/views.py` create views, permission classes and `perform_create`: framework and authentication wiring with no logic of its own.
- `geo_api/urls.py`: HTTP routing only.
- `geo_api/models.py`: ORM schema whose limits the database layer enforces; its `__str__` methods only format strings.
- `PointMessageSerializer` (geo_api/serializers.py:72-86): a lookup of the point's primary key in the database, with error handling from the library.
- The serializer's other model features (field lists, read-only fields) and how the framework collects the raised error under the "coordinates" key: library behaviour.
- Binary floating point: numbers are exact reals. So a decimal literal that Python would round onto a bound (for example 180.00000000000000001 parsing as 180.0) is rejected here. NaN and infinities are not modelled.
- Message has no contract of its own. Its texts match the serializer's word for word. The eight phrase lemmas in the table tie it to the phrases the tests look for. The test for a missing "type" (geo_api/tests.py:561-572) asserts no phrase, so that message has no phrase lemma.
