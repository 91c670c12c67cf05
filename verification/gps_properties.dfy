/** Properties of `grab_gps`: hemisphere signs, which tags affect which
    field, the altitude default, the documented example and a round trip
    through the tag layout a camera writes. */
module GpsProperties {
  import opened Outcomes
  import opened Dms
  import opened Exif
  import opened Gps

  /** Every one of the three leading DMS values is non-negative, as in an
      unsigned RATIONAL tag. */
  predicate NonNegativeDms(values: seq<Value>)
    requires IsDms(values)
  {
    forall k :: 0 <= k < 3 ==> 0.0 <= AsReal(values[k].ratio)
  }

  /** Non-negative DMS values give a non-negative angle, which is what the
      sign lemmas below assume; a signed (SRATIONAL) tag may not. */
  lemma NonNegativeDmsAngle(values: seq<Value>)
    requires IsDms(values) && NonNegativeDms(values)
    ensures 0.0 <= AsReal(values[0].ratio) <= Angle(values)
  {
    var d, m, s := values[0].ratio, values[1].ratio, values[2].ratio;
    DmsAtLeastDegrees(d.num, d.den, m.num, m.den, s.num, s.den);
  }

  /** For a non-negative latitude angle, reference "S" gives a latitude at
      most 0, and any other reference, "s" and "N" included, keeps it at
      least 0. */
  lemma LatitudeSign(header: Header)
    requires GrabGps(header).Success?
    requires 0.0 <= Angle(header[LatitudeKey].values)
    ensures header[LatitudeRefKey].printable == "S" ==> GrabGps(header).value.lat <= 0.0
    ensures header[LatitudeRefKey].printable != "S" ==> GrabGps(header).value.lat >= 0.0
  {
  }

  /** For a non-negative longitude angle, reference "W" gives a longitude at
      most 0, and any other reference keeps it at least 0. */
  lemma LongitudeSign(header: Header)
    requires GrabGps(header).Success?
    requires 0.0 <= Angle(header[LongitudeKey].values)
    ensures header[LongitudeRefKey].printable == "W" ==> GrabGps(header).value.long <= 0.0
    ensures header[LongitudeRefKey].printable != "W" ==> GrabGps(header).value.long >= 0.0
  {
  }

  /** Rewriting the latitude reference changes only the sign of LAT, and
      only when it moves into or out of "S"; LONG, ALT and whether the call
      raises stay the same. */
  lemma LatitudeRefOnlySignsLatitude(header: Header, printable: string)
    requires LatitudeRefKey in header
    ensures var header' := header[LatitudeRefKey := header[LatitudeRefKey].(printable := printable)];
      && GrabGps(header').Success? == GrabGps(header).Success?
      && (GrabGps(header).Success? ==>
            && GrabGps(header').value.long == GrabGps(header).value.long
            && GrabGps(header').value.alt == GrabGps(header).value.alt
            && GrabGps(header').value.lat ==
                 if (printable == "S") == (header[LatitudeRefKey].printable == "S")
                 then GrabGps(header).value.lat
                 else -GrabGps(header).value.lat)
  {

  }

  /** Rewriting the longitude reference changes only the sign of LONG, and
      only when it moves into or out of "W". */
  lemma LongitudeRefOnlySignsLongitude(header: Header, printable: string)
    requires LongitudeRefKey in header
    ensures var header' := header[LongitudeRefKey := header[LongitudeRefKey].(printable := printable)];
      && GrabGps(header').Success? == GrabGps(header).Success?
      && (GrabGps(header).Success? ==>
            && GrabGps(header').value.lat == GrabGps(header).value.lat
            && GrabGps(header').value.alt == GrabGps(header).value.alt
            && GrabGps(header').value.long ==
                 if (printable == "W") == (header[LongitudeRefKey].printable == "W")
                 then GrabGps(header).value.long
                 else -GrabGps(header).value.long)
  {

  }

  /** Dropping the altitude tag gives ALT 0 and leaves LAT and LONG alone;
      in particular a header that raised only over its altitude (an
      unreadable altitude value or a missing altitude reference) then
      converts. */
  lemma NoAltitudeMeansZero(header: Header)
    requires Readable(header - {AltitudeKey})
    ensures GrabGps(header - {AltitudeKey})
      == Success(Gps(0.0, Latitude(header - {AltitudeKey}), Longitude(header - {AltitudeKey})))
    ensures GrabGps(header).Success? ==>
      GrabGps(header - {AltitudeKey}) == Success(Gps(0.0, GrabGps(header).value.lat, GrabGps(header).value.long))
  {
  }

  /** The header cut down to the six GPS tags. */
  function GpsTagsOnly(header: Header): (r: Header)
    ensures r.Keys == header.Keys * GpsKeys
    ensures forall k :: k in r ==> r[k] == header[k]
  {
    map k | k in header && k in GpsKeys :: header[k]
  }

  /** Only the six GPS tags matter: every other tag of the header, such as
      `GPS GPSVersionID` or `Image DateTime`, leaves the outcome unchanged. */
  lemma OnlyGpsTagsMatter(header: Header)
    ensures GrabGps(GpsTagsOnly(header)) == GrabGps(header)
  {

  }

  /** The example header of the `grab_gps` docstring, tags included that
      the conversion ignores. */
  function DocstringHeader(): Header
  {
    map[
      "GPS GPSVersionID" := Tag("[2, 2, 0, 0]", [Integer(2), Integer(2), Integer(0), Integer(0)]),
      LatitudeRefKey := Tag("N", []),
      LatitudeKey := Tag("[48, 16, 579/100]",
                         [Rational(Ratio(48, 1)), Rational(Ratio(16, 1)), Rational(Ratio(579, 100))]),
      LongitudeRefKey := Tag("E", []),
      LongitudeKey := Tag("[11, 36, 121/10]",
                          [Rational(Ratio(11, 1)), Rational(Ratio(36, 1)), Rational(Ratio(121, 10))]),
      AltitudeRefKey := Tag("0", [Integer(0)]),
      AltitudeKey := Tag("10801/20", [Rational(Ratio(10801, 20))]),
      "GPS GPSDOP" := Tag("10", [Integer(10)]),
      "Image GPSInfo" := Tag("21009", [Integer(21009)])
    ]
  }

  /** The docstring example: 48 16' 5.79" N, 11 36' 12.1" E, 540.05 m. */
  lemma DocstringExample()
    ensures GrabGps(DocstringHeader())
      == Success(Gps(540.05, 48.0 + 16.0 / 60.0 + 5.79 / 3600.0, 11.0 + 36.0 / 60.0 + 12.1 / 3600.0))
  {

  }

  function Abs(x: int): nat
  {
    if x < 0 then -x else x
  }

  /** A DMS tag for an unsigned angle in hundredths of an arc second. */
  function DmsTag(hundredths: nat): Tag
  {
    var e := EncodeDms(hundredths);
    Tag("", [Rational(e[0]), Rational(e[1]), Rational(e[2])])
  }

  /** The GPS tags a camera writes for a fix: latitude and longitude in
      hundredths of an arc second (negative south and west), and an optional
      altitude in metres (negative below sea level). */
  function Geotag(lat: int, long: int, alt: Option<Ratio>): (header: Header)
    requires alt.Some? ==> alt.value.den > 0
    ensures header.Keys <= GpsKeys
    ensures AltitudeKey in header <==> alt.Some?
  {
    var position := map[
      LatitudeRefKey := Tag(if lat < 0 then "S" else "N", []),
      LatitudeKey := DmsTag(Abs(lat)),
      LongitudeRefKey := Tag(if long < 0 then "W" else "E", []),
      LongitudeKey := DmsTag(Abs(long))
    ];
    match alt
    case None => position
    case Some(q) =>
      position[AltitudeRefKey := Tag(if q.num < 0 then "1" else "0", [Integer(if q.num < 0 then 1 else 0)])]
              [AltitudeKey := Tag("", [Rational(Ratio(Abs(q.num), q.den))])]
  }

  /** An encoded DMS tag converts back to its angle in degrees. */
  lemma AngleOfDmsTag(hundredths: nat)
    ensures IsDms(DmsTag(hundredths).values)
    ensures Angle(DmsTag(hundredths).values) == hundredths as real / 360000.0
  {

  }

  /** Round trip: `grab_gps` reads back the fix a camera wrote, signs and
      all, with ALT 0 for a camera that wrote no altitude. */
  lemma GrabGpsOfGeotag(lat: int, long: int, alt: Option<Ratio>)
    requires alt.Some? ==> alt.value.den > 0
    ensures GrabGps(Geotag(lat, long, alt))
      == Success(Gps(if alt.Some? then AsReal(alt.value) else 0.0,
                     lat as real / 360000.0,
                     long as real / 360000.0))
  {
    var header := Geotag(lat, long, alt);
    AngleOfDmsTag(Abs(lat));
    AngleOfDmsTag(Abs(long));
    assert header[LatitudeKey] == DmsTag(Abs(lat));
    assert header[LongitudeKey] == DmsTag(Abs(long));
    assert Readable(header);
    assert Latitude(header) == lat as real / 360000.0;
    assert Longitude(header) == long as real / 360000.0;
    if alt.Some? {
      var q := alt.value;
      assert header[AltitudeKey].values[0].ratio == Ratio(Abs(q.num), q.den);
      assert BelowSeaLevel(header[AltitudeRefKey]) <==> q.num < 0;
      assert Signed(AsReal(Ratio(Abs(q.num), q.den)), q.num < 0) == AsReal(q);
    } else {
      assert AltitudeKey !in header;
    }
  }
}
