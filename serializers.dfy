/**
  The GeoJSON Point check that the point serializer runs on its
  `coordinates` field before a point is stored.

  The check is a fixed chain of guards. The first guard that fails decides
  the one error that is raised. When all of them pass, the value is handed
  back as it came in.
 */
module GeoPointSerializer {
  import opened JsonValues

  /** One constructor per place where the validator raises. */
  datatype ValidationError =
    | NotAnObject
    | MissingType
    | MissingCoordinates
    | NotPointType
    | CoordinatesNotArray
    | WrongLength
    | NotNumbers
    | LongitudeOutOfRange
    | LatitudeOutOfRange

  const MinLongitude: real := -180.0
  const MaxLongitude: real := 180.0
  const MinLatitude: real := -90.0
  const MaxLatitude: real := 90.0

  /** The text of the validation error the serializer reports. */
  function Message(e: ValidationError): string {
    match e
    case NotAnObject => "Coordinates must be a JSON object"
    case MissingType => "Missing 'type' field in GeoJSON"
    case MissingCoordinates => "Missing 'coordinates' field in GeoJSON"
    case NotPointType => "GeoJSON type must be 'Point'"
    case CoordinatesNotArray => "Coordinates must be an array"
    case WrongLength => "Coordinates array must contain exactly 2 values: [longitude, latitude]"
    case NotNumbers => "Longitude and latitude must be numbers"
    case LongitudeOutOfRange => "Longitude must be between -180 and 180 degrees"
    case LatitudeOutOfRange => "Latitude must be between -90 and 90 degrees"
  }

  // Each message carries the phrase the serializer's tests look for in it.
  // The positions are those of the phrase inside the message text.

  lemma NotAnObjectMessagePhrase()
    ensures Message(NotAnObject)[22..33] == "JSON object"
  {
    var m := Message(NotAnObject);
    assert m[22..33] == m[22..];
  }

  lemma MissingCoordinatesMessagePhrase()
    ensures Message(MissingCoordinates)[0..27] == "Missing 'coordinates' field"
  {
    var m := Message(MissingCoordinates);
    assert m[0..27] == m[..27];
  }

  lemma NotPointTypeMessagePhrase()
    ensures Message(NotPointType)[22..27] == "Point"
  {
  }

  lemma CoordinatesNotArrayMessagePhrase()
    ensures Message(CoordinatesNotArray)[23..28] == "array"
  {
    var m := Message(CoordinatesNotArray);
    assert m[23..28] == m[23..];
  }

  lemma WrongLengthMessagePhrase()
    ensures Message(WrongLength)[31..47] == "exactly 2 values"
  {
    var m := Message(WrongLength);
    assert m[..47] == "Coordinates array must contain exactly 2 values";
    assert m[31..47] == m[..47][31..];
  }

  lemma NotNumbersMessagePhrase()
    ensures Message(NotNumbers)[23..38] == "must be numbers"
  {
    var m := Message(NotNumbers);
    assert m[23..38] == m[23..];
  }

  lemma LongitudeMessagePhrase()
    ensures Message(LongitudeOutOfRange)[18..38] == "between -180 and 180"
  {
    var m := Message(LongitudeOutOfRange);
    assert m[..38] == "Longitude must be between -180 and 180";
    assert m[18..38] == m[..38][18..];
  }

  lemma LatitudeMessagePhrase()
    ensures Message(LatitudeOutOfRange)[17..35] == "between -90 and 90"
  {
    var m := Message(LatitudeOutOfRange);
    assert m[..35] == "Latitude must be between -90 and 90";
    assert m[17..35] == m[..35][17..];
  }

  /**
    Checks `value` against the Point shape the serializer accepts: an object
    whose "type" is "Point" and whose "coordinates" is a two-element array of
    numbers, longitude first, then latitude, each inside its inclusive range.
   */
  function ValidateCoordinates(value: Json): (r: Result<Json, ValidationError>)
    ensures r.Success? ==> r.value == value
  {
    if !value.JObject? then Failure(NotAnObject)
    else if "type" !in value.members then Failure(MissingType)
    else if "coordinates" !in value.members then Failure(MissingCoordinates)
    else if value.members["type"] != JString("Point") then Failure(NotPointType)
    else
      var coords := value.members["coordinates"];
      if !coords.JArray? then Failure(CoordinatesNotArray)
      else if |coords.elems| != 2 then Failure(WrongLength)
      else
        var lon, lat := NumericValue(coords.elems[0]), NumericValue(coords.elems[1]);
        if lon.None? || lat.None? then Failure(NotNumbers)
        else if !(MinLongitude <= lon.value <= MaxLongitude) then Failure(LongitudeOutOfRange)
        else if !(MinLatitude <= lat.value <= MaxLatitude) then Failure(LatitudeOutOfRange)
        else Success(value)
  }
}
