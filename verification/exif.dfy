/** The parsed EXIF header, as `exifread.process_file` hands it over: a map
    from tag names to tags. Parsing the image bytes is not modelled. */
module Exif {
  /** An EXIF RATIONAL: numerator over denominator, as two integers. */
  datatype Ratio = Ratio(num: int, den: int)

  /** One entry of a tag's `.values`: a RATIONAL (with `.num` and `.den`)
      or a plain integer such as a BYTE reference code. */
  datatype Value = Rational(ratio: Ratio) | Integer(n: int)

  /** A tag: its human-readable `.printable` text and its `.values`. */
  datatype Tag = Tag(printable: string, values: seq<Value>)

  type Header = map<string, Tag>

  const LatitudeKey: string := "GPS GPSLatitude"
  const LatitudeRefKey: string := "GPS GPSLatitudeRef"
  const LongitudeKey: string := "GPS GPSLongitude"
  const LongitudeRefKey: string := "GPS GPSLongitudeRef"
  const AltitudeKey: string := "GPS GPSAltitude"
  const AltitudeRefKey: string := "GPS GPSAltitudeRef"

  /** The six tags the GPS extraction reads. */
  const GpsKeys: set<string> :=
    {LatitudeKey, LatitudeRefKey, LongitudeKey, LongitudeRefKey, AltitudeKey, AltitudeRefKey}
}
