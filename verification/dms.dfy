/** `dms_to_decimal`: degree/minute/second rationals to a decimal angle.
    Python's float division is modelled as exact division over `real`. */
module Dms {
  import opened Outcomes
  import opened Exif

  /** The exact value of a rational with a non-zero denominator. */
  function AsReal(q: Ratio): real
    requires q.den != 0
  {
    q.num as real / q.den as real
  }

  /** Python's true division `n / d` of two integers. */
  function Divide(n: int, d: int): (r: Result<real>)
    ensures r.Success? <==> d != 0
    ensures r.Failure? ==> r.error == ZeroDivisionError
    ensures r.Success? ==> r.value * d as real == n as real
  {
    if d == 0 then Failure(ZeroDivisionError) else Success(n as real / d as real)
  }

  /** `dms_to_decimal(deg_num, deg_den, min_num, min_den, sec_num, sec_den)`.
      The result, scaled to arc seconds, is 3600 per degree plus 60 per
      minute plus the seconds; any zero denominator raises. */
  function DmsToDecimal(degNum: int, degDen: int, minNum: int, minDen: int,
                        secNum: int, secDen: int): (r: Result<real>)
    ensures r.Success? <==> degDen != 0 && minDen != 0 && secDen != 0
    ensures r.Failure? ==> r.error == ZeroDivisionError
    ensures r.Success? ==>
      3600.0 * r.value
        == 3600.0 * AsReal(Ratio(degNum, degDen))
           + 60.0 * AsReal(Ratio(minNum, minDen))
           + AsReal(Ratio(secNum, secDen))
  {
    var degree :- Divide(degNum, degDen);
    var minutes :- Divide(minNum, minDen);
    var seconds :- Divide(secNum, secDen);
    Success(degree + minutes / 60.0 + seconds / 3600.0)
  }

  /** Reference definition: base-60 positional notation, most significant
      digit first (`d m s` reads `d + (m + s / 60) / 60`). */
  function Sexagesimal(digits: seq<real>): real
  {
    if |digits| == 0 then 0.0 else digits[0] + Sexagesimal(digits[1..]) / 60.0
  }

  /** `dms_to_decimal` reads its three rationals as sexagesimal digits. */
  lemma {:induction false} DmsIsSexagesimal(degNum: int, degDen: int, minNum: int, minDen: int,
                                            secNum: int, secDen: int)
    requires degDen != 0 && minDen != 0 && secDen != 0
    ensures DmsToDecimal(degNum, degDen, minNum, minDen, secNum, secDen)
      == Success(Sexagesimal([AsReal(Ratio(degNum, degDen)),
                              AsReal(Ratio(minNum, minDen)),
                              AsReal(Ratio(secNum, secDen))]))
  {
    var d, m, s := AsReal(Ratio(degNum, degDen)), AsReal(Ratio(minNum, minDen)), AsReal(Ratio(secNum, secDen));
    assert [d, m, s][1..] == [m, s];
    assert [m, s][1..] == [s];
    assert [s][1..] == [];
    assert Sexagesimal([s]) == s;
    assert Sexagesimal([m, s]) == m + s / 60.0;
    assert Sexagesimal([d, m, s]) == d + (m + s / 60.0) / 60.0;
  }

  /** Non-negative degrees, minutes and seconds give an angle no smaller
      than its degrees, hence never a negative one. */
  lemma DmsAtLeastDegrees(degNum: int, degDen: int, minNum: int, minDen: int,
                          secNum: int, secDen: int)
    requires degDen != 0 && minDen != 0 && secDen != 0
    requires 0.0 <= AsReal(Ratio(degNum, degDen))
    requires 0.0 <= AsReal(Ratio(minNum, minDen))
    requires 0.0 <= AsReal(Ratio(secNum, secDen))
    ensures var r := DmsToDecimal(degNum, degDen, minNum, minDen, secNum, secDen);
      r.Success? && 0.0 <= AsReal(Ratio(degNum, degDen)) <= r.value
  {

  }

  /** The inverse direction, as a camera writes the tag: an unsigned angle
      in hundredths of an arc second becomes whole degrees, whole minutes
      and seconds over 100 (the layout `[48, 16, 579/100]`). */
  function EncodeDms(hundredths: nat): (r: seq<Ratio>)
    ensures |r| == 3
    ensures r[0].den == 1 && r[1].den == 1 && r[2].den == 100
    ensures 0 <= r[0].num && 0 <= r[1].num < 60 && 0 <= r[2].num < 6000
  {
    [Ratio(hundredths / 360000, 1),
     Ratio(hundredths % 360000 / 6000, 1),
     Ratio(hundredths % 6000, 100)]
  }

  /** Round trip: decoding an encoded angle gives the angle back, in degrees. */
  lemma {:induction false} DmsToDecimalOfEncodeDms(hundredths: nat)
    ensures var e := EncodeDms(hundredths);
      DmsToDecimal(e[0].num, e[0].den, e[1].num, e[1].den, e[2].num, e[2].den)
        == Success(hundredths as real / 360000.0)
  {
    var d := hundredths / 360000;
    var rest := hundredths % 360000;
    var m := rest / 6000;
    var s := rest % 6000;
    assert hundredths == 360000 * d + 6000 * m + s;
    assert hundredths as real == 360000.0 * d as real + 6000.0 * m as real + s as real;
  }
}
