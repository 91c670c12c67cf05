/** `grab_gps`: the signed latitude, longitude and altitude of one photo,
    read from the GPS tags of its parsed EXIF header. */
module Gps {
  import opened Outcomes
  import opened Dms
  import opened Exif

  /** The record `{"ALT": ..., "LAT": ..., "LONG": ...}`. */
  datatype Gps = Gps(alt: real, lat: real, long: real)

  /** `tag.values[k]` followed by `.num` and `.den`. */
  function RationalAt(values: seq<Value>, k: nat): (r: Result<Ratio>)
    ensures r.Success? <==> k < |values| && values[k].Rational?
    ensures r.Success? ==> r.value == values[k].ratio
    ensures k >= |values| ==> r == Failure(IndexError)
    ensures k < |values| && values[k].Integer? ==> r == Failure(AttributeError)
  {
    if k >= |values| then Failure(IndexError)
    else if values[k].Integer? then Failure(AttributeError)
    else Success(values[k].ratio)
  }

  /** The values of a tag that converts: three leading rationals with
      non-zero denominators (further values are never looked at). */
  predicate IsDms(values: seq<Value>)
  {
    && |values| >= 3
    && forall k :: 0 <= k < 3 ==> values[k].Rational? && values[k].ratio.den != 0
  }

  /** The decimal angle such values denote: degrees + minutes/60 + seconds/3600. */
  function Angle(values: seq<Value>): real
    requires IsDms(values)
  {
    AsReal(values[0].ratio) + AsReal(values[1].ratio) / 60.0 + AsReal(values[2].ratio) / 3600.0
  }

  /** `dms_to_decimal` applied to `values[0..3]` of a latitude or longitude tag. */
  function TagDms(values: seq<Value>): (r: Result<real>)
    ensures r.Success? <==> IsDms(values)
    ensures r.Success? ==> r.value == Angle(values)
    ensures r.Failure? ==> !r.error.KeyError?
    ensures forall k :: 0 <= k < 3 && RationalAt(values, k).Failure? &&
                        (forall j :: 0 <= j < k ==> RationalAt(values, j).Success?) ==>
              r == Failure(RationalAt(values, k).error)
    ensures |values| >= 3 && (forall k :: 0 <= k < 3 ==> values[k].Rational?) && !IsDms(values) ==>
              r == Failure(ZeroDivisionError)
  {
    var deg :- RationalAt(values, 0);
    var min :- RationalAt(values, 1);
    var sec :- RationalAt(values, 2);
    DmsToDecimal(deg.num, deg.den, min.num, min.den, sec.num, sec.den)
  }

  /** `x *= -1` when `negate` holds. */
  function Signed(x: real, negate: bool): real
  {
    if negate then -x else x
  }

  /** The altitude reference "equals 1" (below sea level). The code compares
      the tag object itself with `1`; the model gives that comparison its
      intended meaning, a reference whose single value is the integer 1. */
  predicate BelowSeaLevel(ref: Tag)
  {
    ref.values == [Integer(1)]
  }

  /** An altitude tag whose first value is a rational with a non-zero
      denominator. */
  predicate AltitudeValueReadable(header: Header)
  {
    && AltitudeKey in header
    && |header[AltitudeKey].values| > 0
    && header[AltitudeKey].values[0].Rational?
    && header[AltitudeKey].values[0].ratio.den != 0
  }

  /** The altitude part of a header converts: either no altitude tag, or a
      readable altitude value together with an altitude reference tag. */
  predicate AltitudeReadable(header: Header)
  {
    AltitudeKey in header ==> AltitudeValueReadable(header) && AltitudeRefKey in header
  }

  /** Lines 81-88 of `grab_gps`: the altitude, 0 when the photo has none. */
  function Altitude(header: Header): (r: Result<real>)
    ensures r.Success? <==> AltitudeReadable(header)
    ensures AltitudeKey !in header ==> r == Success(0.0)
    ensures r.Success? && AltitudeKey in header ==>
      r.value == Signed(AsReal(header[AltitudeKey].values[0].ratio), BelowSeaLevel(header[AltitudeRefKey]))
    ensures r.Failure? && r.error.KeyError? ==> r.error.key == AltitudeRefKey && AltitudeRefKey !in header
    ensures AltitudeValueReadable(header) && AltitudeRefKey !in header ==> r == Failure(KeyError(AltitudeRefKey))
    ensures AltitudeKey in header && |header[AltitudeKey].values| == 0 ==> r == Failure(IndexError)
    ensures AltitudeKey in header && |header[AltitudeKey].values| > 0 && header[AltitudeKey].values[0].Integer? ==>
              r == Failure(AttributeError)
    ensures AltitudeKey in header && |header[AltitudeKey].values| > 0 && header[AltitudeKey].values[0].Rational? &&
            header[AltitudeKey].values[0].ratio.den == 0 ==>
              r == Failure(ZeroDivisionError)
  {
    if AltitudeKey in header then
      var alt :- RationalAt(header[AltitudeKey].values, 0);
      var altitude :- Divide(alt.num, alt.den);
      if AltitudeRefKey !in header then Failure(KeyError(AltitudeRefKey))
      else Success(Signed(altitude, BelowSeaLevel(header[AltitudeRefKey])))
    else
      Success(0.0)
  }

  /** Both DMS tags are present and convert (lines 66-74 do not raise). */
  predicate PositionConverts(header: Header)
  {
    && LatitudeKey in header
    && LongitudeKey in header
    && IsDms(header[LatitudeKey].values)
    && IsDms(header[LongitudeKey].values)
  }

  /** A header from which `grab_gps` returns a record rather than raising. */
  predicate Readable(header: Header)
  {
    && PositionConverts(header)
    && LatitudeRefKey in header
    && LongitudeRefKey in header
    && AltitudeReadable(header)
  }

  /** The latitude of a readable header: the DMS angle, negated exactly when
      the reference prints as "S". */
  function Latitude(header: Header): real
    requires Readable(header)
  {
    Signed(Angle(header[LatitudeKey].values), header[LatitudeRefKey].printable == "S")
  }

  /** The longitude of a readable header: the DMS angle, negated exactly when
      the reference prints as "W". */
  function Longitude(header: Header): real
    requires Readable(header)
  {
    Signed(Angle(header[LongitudeKey].values), header[LongitudeRefKey].printable == "W")
  }

  /** `grab_gps(file_data)` on the header `exifread.process_file` parsed. */
  function GrabGps(header: Header): (r: Result<Gps>)
    ensures r.Success? <==> Readable(header)
    ensures r.Success? ==> r.value.lat == Latitude(header)
    ensures r.Success? ==> r.value.long == Longitude(header)
    ensures r.Success? && AltitudeKey !in header ==> r.value.alt == 0.0
    ensures r.Success? && AltitudeKey in header ==>
      r.value.alt == Signed(AsReal(header[AltitudeKey].values[0].ratio), BelowSeaLevel(header[AltitudeRefKey]))
    ensures LatitudeKey !in header ==> r == Failure(KeyError(LatitudeKey))
    ensures LatitudeKey in header && LongitudeKey !in header ==> r == Failure(KeyError(LongitudeKey))
    ensures LatitudeKey in header && LongitudeKey in header && !IsDms(header[LatitudeKey].values) ==>
              r == Failure(TagDms(header[LatitudeKey].values).error)
    ensures LatitudeKey in header && LongitudeKey in header && IsDms(header[LatitudeKey].values) &&
            !IsDms(header[LongitudeKey].values) ==>
              r == Failure(TagDms(header[LongitudeKey].values).error)
    ensures PositionConverts(header) && LatitudeRefKey in header && LongitudeRefKey in header && r.Failure? ==>
              r == Failure(Altitude(header).error)
    ensures PositionConverts(header) && LatitudeRefKey !in header ==> r == Failure(KeyError(LatitudeRefKey))
    ensures PositionConverts(header) && LatitudeRefKey in header && LongitudeRefKey !in header ==>
      r == Failure(KeyError(LongitudeRefKey))
    ensures PositionConverts(header) && LatitudeRefKey in header && LongitudeRefKey in header &&
            AltitudeValueReadable(header) && AltitudeRefKey !in header ==>
              r == Failure(KeyError(AltitudeRefKey))
    ensures r.Failure? && r.error.KeyError? ==>
      r.error.key in GpsKeys - {AltitudeKey} && r.error.key !in header
  {
    if LatitudeKey !in header then Failure(KeyError(LatitudeKey))
    else if LongitudeKey !in header then Failure(KeyError(LongitudeKey))
    else
      var latitude :- TagDms(header[LatitudeKey].values);
      var longitude :- TagDms(header[LongitudeKey].values);
      if LatitudeRefKey !in header then Failure(KeyError(LatitudeRefKey))
      else if LongitudeRefKey !in header then Failure(KeyError(LongitudeRefKey))
      else
        var altitude :- Altitude(header);
        Success(Gps(altitude,
                    Signed(latitude, header[LatitudeRefKey].printable == "S"),
                    Signed(longitude, header[LongitudeRefKey].printable == "W")))
  }
}
