/**
 * Decoding of one notification payload into a GPS point (`parseAndStoreGpsData`).
 * The payload text is `"<lat>,<lng>[,...]"`; `String.toDoubleOrNull` is left
 * abstract as a parameter `toDouble`, a partial map from text to a number of type `D`.
 */
module GpsFrame {
  import opened Wrappers
  import opened Text

  /** One accepted sample of the track (`data class GpsPoint`). */
  datatype GpsPoint<D> = GpsPoint(latitude: D, longitude: D)

  /** The field delimiter of a frame. */
  const Delimiter: char := ','

  /** The fields of a payload: its trimmed text split on the delimiter. */
  function Fields(data: string): (fields: seq<string>)
    ensures |fields| >= 1
    ensures forall i :: 0 <= i < |fields| ==> Delimiter !in fields[i]
    ensures Join(fields, Delimiter) == Trim(data)
  {
    SplitJoin(Trim(data), Delimiter);
    Split(Trim(data), Delimiter)
  }

  /**
   * The point a payload decodes to: fields 0 and 1 both parsed, any further
   * fields ignored; `None` when there are fewer than two fields or either of the
   * first two does not parse.
   */
  function Parse<D>(data: string, toDouble: string -> Option<D>): Option<GpsPoint<D>>
  {
    var fields := Fields(data);
    if |fields| >= 2 then
      match (toDouble(fields[0]), toDouble(fields[1]))
      case (Some(lat), Some(lng)) => Some(GpsPoint(lat, lng))
      case _ => None
    else None
  }

  /**
   * `parseAndStoreGpsData`: the track after one payload. Earlier points are kept
   * in order; at most one point is added, at the end, and only when the payload
   * decodes, in which case it is the decoded point.
   */
  function Store<D>(points: seq<GpsPoint<D>>, data: string, toDouble: string -> Option<D>): (r: seq<GpsPoint<D>>)
    ensures points <= r
    ensures |r| == |points| + (if Parse(data, toDouble).Some? then 1 else 0)
    ensures Parse(data, toDouble).Some? ==> r[|points|] == Parse(data, toDouble).value
  {
    match Parse(data, toDouble)
    case Some(point) => points + [point]
    case None => points
  }

  /** A non-empty text with a non-blank at both ends, so `trim()` leaves it alone. */
  predicate Unpadded(s: string) {
    s != "" && !IsWhitespace(s[0]) && !IsWhitespace(s[|s| - 1])
  }

  /** The frame text a sender emits for a pair of coordinates, followed by optional extra fields. */
  function Format(lat: string, lng: string, extra: seq<string>): string
  {
    Join([lat, lng] + extra, Delimiter)
  }

  /**
   * Round trip: a frame written as `lat,lng[,extra...]` that starts and ends
   * with a non-blank decodes to exactly the point of its first two fields,
   * whatever the extra fields are, and to nothing when either of the two does
   * not parse.
   */
  lemma {:induction false} FormatParse<D>(lat: string, lng: string, extra: seq<string>, toDouble: string -> Option<D>)
    requires Delimiter !in lat && Delimiter !in lng
    requires forall i :: 0 <= i < |extra| ==> Delimiter !in extra[i]
    requires Unpadded(Format(lat, lng, extra))
    ensures toDouble(lat).Some? && toDouble(lng).Some? ==>
              Parse(Format(lat, lng, extra), toDouble) == Some(GpsPoint(toDouble(lat).value, toDouble(lng).value))
    ensures toDouble(lat).None? || toDouble(lng).None? ==> Parse(Format(lat, lng, extra), toDouble) == None
  {
    FormatFields(lat, lng, extra);
    ParseFirstTwo(Format(lat, lng, extra), lat, lng, extra, toDouble);
  }

  /** A payload whose first two fields are `lat` and `lng` decodes as those two strings parse. */
  lemma ParseFirstTwo<D>(data: string, lat: string, lng: string, extra: seq<string>, toDouble: string -> Option<D>)
    requires Fields(data) == [lat, lng] + extra
    ensures toDouble(lat).Some? && toDouble(lng).Some? ==>
              Parse(data, toDouble) == Some(GpsPoint(toDouble(lat).value, toDouble(lng).value))
    ensures toDouble(lat).None? || toDouble(lng).None? ==> Parse(data, toDouble) == None
  {
    assert Fields(data)[0] == lat && Fields(data)[1] == lng;
  }

  /** Under the conditions of `FormatParse`, the fields of the frame are exactly the parts it was written from. */
  lemma {:induction false} FormatFields(lat: string, lng: string, extra: seq<string>)
    requires Delimiter !in lat && Delimiter !in lng
    requires forall i :: 0 <= i < |extra| ==> Delimiter !in extra[i]
    requires Unpadded(Format(lat, lng, extra))
    ensures Fields(Format(lat, lng, extra)) == [lat, lng] + extra
  {
    var parts := [lat, lng] + extra;
    var frame := Format(lat, lng, extra);
    FormatTrimmed(lat, lng, extra);
    PartsWithoutDelimiter(lat, lng, extra);
    JoinSplit(parts, Delimiter);
  }

  /** A frame that starts and ends with a non-blank is left alone by trimming. */
  lemma FormatTrimmed(lat: string, lng: string, extra: seq<string>)
    requires Unpadded(Format(lat, lng, extra))
    ensures Trim(Format(lat, lng, extra)) == Format(lat, lng, extra)
  {
    TrimFixpoint(Format(lat, lng, extra));
  }

  /** The parts of a frame are delimiter-free when its fields are. */
  lemma PartsWithoutDelimiter(lat: string, lng: string, extra: seq<string>)
    requires Delimiter !in lat && Delimiter !in lng
    requires forall i :: 0 <= i < |extra| ==> Delimiter !in extra[i]
    ensures forall i :: 0 <= i < |[lat, lng] + extra| ==> Delimiter !in ([lat, lng] + extra)[i]
  {
    var parts := [lat, lng] + extra;
    forall i | 0 <= i < |parts|
      ensures Delimiter !in parts[i]
    {
      if i >= 2 {
        assert parts[i] == extra[i - 2];
      }
    }
  }

  /** A payload with no delimiter at all is a single field and never yields a point. */
  lemma NoDelimiterNoPoint<D>(data: string, toDouble: string -> Option<D>)
    requires Delimiter !in data
    ensures Parse(data, toDouble) == None
  {
    TrimKeepsAbsent(data, Delimiter);
    SplitNoSeparator(Trim(data), Delimiter);
  }

  /** A payload has a second field exactly when its trimmed text contains the delimiter. */
  lemma SecondFieldPresent(data: string)
    ensures |Fields(data)| >= 2 <==> Delimiter in Trim(data)
  {
    SplitCount(Trim(data), Delimiter);
    CountPositive(Trim(data), Delimiter);
  }

  /**
   * Which payloads decode: exactly those whose trimmed text contains the
   * delimiter and whose first two fields both parse; the point is made of
   * those two parsed values.
   */
  lemma ParseAccepts<D>(data: string, toDouble: string -> Option<D>)
    ensures Delimiter !in Trim(data) ==> Parse(data, toDouble) == None
    ensures Delimiter in Trim(data) ==>
              var f := Fields(data);
              |f| >= 2
              && (Parse(data, toDouble).Some? <==> toDouble(f[0]).Some? && toDouble(f[1]).Some?)
              && (Parse(data, toDouble).Some? ==>
                    Parse(data, toDouble).value == GpsPoint(toDouble(f[0]).value, toDouble(f[1]).value))
  {
    SecondFieldPresent(data);
  }

  /** The delimiter count is positive exactly when the delimiter occurs. */
  lemma {:induction false} CountPositive(s: string, c: char)
    ensures Count(s, c) > 0 <==> c in s
    decreases |s|
  {
    if s != "" {
      CountPositive(s[1..], c);
      assert s == [s[0]] + s[1..];
    }
  }
}
