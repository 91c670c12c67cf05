# pic2pin GPS extraction, modelled in Dafny

pic2pin reads the EXIF headers of geo-tagged photos and reports where each
photo was taken. Its one piece of logic is the GPS conversion in
`pic2pin.py`:

- `dms_to_decimal` turns three degree/minute/second rationals into one
  decimal angle, `deg + min/60 + sec/3600`;
- `grab_gps` takes the GPS tags of one photo's parsed EXIF header and returns
  the record `{ALT, LAT, LONG}`. It signs latitude by the `S` reference and
  longitude by the `W` reference. It reads the altitude as a rational,
  negated when the altitude reference is 1, and uses 0 when the photo has no
  altitude.

The model has four modules, and a fifth, `GpsProperties`, holds the lemmas about them:

- `Outcomes` holds the result type. A call returns either its value or the
  Python exception it raises: `KeyError`, `IndexError`, `AttributeError` or
  `ZeroDivisionError`.
- `Dms` models `dms_to_decimal` over exact `real` arithmetic. It also has a
  reference definition, base-60 positional notation, and the inverse encoding
  a camera uses to write the tag.
- `Exif` models the header that `exifread.process_file` returns as a
  `map<string, Tag>`. A `Tag` has a `printable` text and a sequence of
  `values`. Each value is a rational (`num`, `den`) or an integer.
- `Gps` models `grab_gps`. It evaluates in the same order as the Python
  code, so the first exception the code would raise is the one returned.

`GpsProperties` proves the following:

- the hemisphere signs;
- which tags affect which field;
- the altitude default;
- the docstring example;
- a round trip through the tags a camera writes.

Every failure of `grab_gps` is an exception, never an empty or partial
record. A missing latitude or longitude tag raises `KeyError`
(pic2pin.py:66-67). Next the two DMS tags are converted, latitude first: too
few values raise `IndexError`, a non-rational value raises `AttributeError`,
and a zero denominator raises `ZeroDivisionError` (pic2pin.py:34-36, 69-74).
Only once both convert does a missing hemisphere reference tag raise
`KeyError` (pic2pin.py:76, 78). The altitude value is read before its
reference: an empty, non-rational or zero-denominator altitude raises
`IndexError`, `AttributeError` or `ZeroDivisionError` (pic2pin.py:84-85),
and only a readable altitude without an altitude reference tag raises
`KeyError` (pic2pin.py:86). A photo with no altitude tag gets ALT 0 (pic2pin.py:88).

## Model

| member | source | states |
|---|---|---|
| Dms.Divide | pic2pin.py:34-36 | Python's `/` on two integers: it raises ZeroDivisionError exactly when the divisor is 0; otherwise the quotient times the divisor gives back the dividend |
| Dms.DmsToDecimal | pic2pin.py:29-38 | succeeds exactly when all three denominators are non-zero, and otherwise raises ZeroDivisionError; in arc seconds, the result is 3600 per degree plus 60 per minute plus the seconds |
| Dms.DmsIsSexagesimal | pic2pin.py:34-38 | the conversion equals an independent definition: the three rationals read as base-60 digits, most significant first |
| Dms.DmsAtLeastDegrees | pic2pin.py:34-38 | non-negative degrees, minutes and seconds give an angle at least as large as its degrees, so never a negative one |
| Dms.DmsToDecimalOfEncodeDms | pic2pin.py:29-38 | encoding an angle as whole degrees, whole minutes and seconds over 100, then converting it, gives the angle back exactly |
| Gps.RationalAt | pic2pin.py:69-74 | `values[k].num/.den` succeeds exactly when value k exists and is a rational; too few values raise IndexError; a non-rational value raises AttributeError |
| Gps.TagDms | pic2pin.py:69-74 | converting a tag's first three values succeeds exactly when they are rationals with non-zero denominators, and then gives deg + min/60 + sec/3600; otherwise it raises the error of the first of the three values that is missing (IndexError) or not a rational (AttributeError), and ZeroDivisionError when all three are rationals; the failure is never a KeyError |
| Gps.Altitude | pic2pin.py:81-88 | with no altitude tag, ALT is 0 rather than absent; otherwise ALT is num/den of the first value, negated exactly when the reference equals 1; a readable altitude value without a reference tag raises KeyError for that tag, and that is the only KeyError it raises; an altitude tag with no values raises IndexError, a non-rational first value AttributeError, and a zero denominator ZeroDivisionError, whether or not the reference tag is present |
| Gps.GrabGps | pic2pin.py:41-90 | returns a record exactly when the header is readable; LAT depends only on the latitude tag and its "S" reference, and LONG only on the longitude tag and its "W" reference; ALT is as in Altitude; a missing latitude or longitude tag raises KeyError before anything else; next a latitude tag that does not convert raises its TagDms error, then a longitude tag that does not convert raises its own; once both convert, a missing latitude reference, then a missing longitude reference, then a missing altitude reference behind a readable altitude value, raises KeyError for that tag, and with both references present any failure is the altitude's error; every KeyError names an absent GPS tag other than the altitude |
| GpsProperties.NonNegativeDmsAngle | pic2pin.py:69-74 | a tag whose three DMS values are non-negative has a non-negative angle, no smaller than its degrees (the hypothesis of the two sign lemmas) |
| GpsProperties.LatitudeSign | pic2pin.py:69-77 | for a non-negative latitude angle, a latitude reference of "S" gives LAT <= 0; any other reference, including "N" and "s", gives LAT >= 0 |
| GpsProperties.LongitudeSign | pic2pin.py:72-79 | for a non-negative longitude angle, a longitude reference of "W" gives LONG <= 0; any other reference gives LONG >= 0 |
| GpsProperties.LatitudeRefOnlySignsLatitude | pic2pin.py:76-77 | rewriting the latitude reference leaves LONG, ALT and success unchanged; it flips LAT's sign exactly when the reference moves into or out of "S" |
| GpsProperties.LongitudeRefOnlySignsLongitude | pic2pin.py:78-79 | rewriting the longitude reference leaves LAT, ALT and success unchanged; it flips LONG's sign exactly when the reference moves into or out of "W" |
| GpsProperties.NoAltitudeMeansZero | pic2pin.py:83-88 | any header that is readable apart from its altitude tag, including one that raised only over its altitude, converts once the altitude tag is removed, with ALT 0; for a header that already converted, LAT and LONG stay the same |
| GpsProperties.OnlyGpsTagsMatter | pic2pin.py:64-90 | tags other than the six GPS tags read never change the outcome, including which exception is raised |
| GpsProperties.DocstringExample | pic2pin.py:44-50 | the docstring header gives ALT 540.05, LAT 48 + 16/60 + 5.79/3600 and LONG 11 + 36/60 + 12.1/3600 |
| GpsProperties.AngleOfDmsTag | pic2pin.py:66-74 | a latitude or longitude tag written in the layout `[d, m, s/100]` converts back to its angle |
| GpsProperties.GrabGpsOfGeotag | pic2pin.py:66-90 | for the tags a camera writes for a fix (signed latitude, longitude and an optional altitude), the conversion returns that fix with its signs, and ALT 0 when no altitude was written |

## Left out

- `exifread.process_file` (pic2pin.py:64): it is a foreign binary EXIF parser, and the model starts from the header map it returns.
- `main` (pic2pin.py:94-105): it reads the command line, opens files and prints the results, which is all I/O.
- KML output, deduplication of identical files, address lookup and output formats: the code does not implement them; they appear only in the TODO at pic2pin.py:107-115 and the module docstring.
- Float rounding: Python's `/` yields IEEE-754 floats, while the model uses exact `real` division, so the model also cannot tell `-0.0` from `0.0`. Nor does it keep the type difference at pic2pin.py:88, where a missing altitude gives the int `0` while every other path gives a float (which `main` would print differently); the model gives `0.0`.
- Gps.BelowSeaLevel: line 86 compares the tag object itself with `1`, and that comparison depends on the library's object equality, which is not modelled. The model gives it its intended meaning: a reference whose single value is the integer 1.
- Ratio construction inside the library (for example, reducing fractions) is not modelled. Each rational is taken as the numerator and denominator the header holds.
