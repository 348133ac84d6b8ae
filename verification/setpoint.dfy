/**
 * The value encoder shared by both driver variants: clamping a requested
 * setpoint into its range (_clamp), the clamp notice of set_voltage and
 * set_current, and the 3-digit wire magnitude (_toBkStr).
 *
 * Setpoints are exact reals; Python's float rounding is not modelled.
 */
module Setpoint {
  import opened Results
  import opened Text

  /** The ValueError _clamp raises for an inverted range. */
  datatype ClampError = InvalidRange(minimum: real, maximum: real)

  /**
   * _clamp: an inverted range is an error; otherwise the requested value is
   * raised to the minimum, lowered to the maximum, or passed through.
   */
  function Clamp(val: real, minimum: real, maximum: real): (r: Result<real, ClampError>)
    ensures r.Failure? <==> minimum > maximum
    ensures r.Failure? ==> r.error == InvalidRange(minimum, maximum)
    ensures r.Success? ==> minimum <= r.value <= maximum
    ensures r.Success? && minimum <= val <= maximum ==> r.value == val
    ensures r.Success? && val < minimum ==> r.value == minimum
    ensures r.Success? && maximum < val ==> r.value == maximum
  {
    if minimum > maximum then Failure(InvalidRange(minimum, maximum))
    else if val < minimum then Success(minimum)
    else if val > maximum then Success(maximum)
    else Success(val)
  }

  function Distance(a: real, b: real): real {
    if a < b then b - a else a - b
  }

  /**
   * An independent description of _clamp: on a proper range it returns the
   * point of [minimum, maximum] nearest to the request, and no other point
   * of the range is as near.
   */
  lemma ClampIsNearest(val: real, minimum: real, maximum: real, other: real)
    requires minimum <= maximum
    requires minimum <= other <= maximum
    ensures Clamp(val, minimum, maximum).Success?
    ensures Distance(val, Clamp(val, minimum, maximum).value) <= Distance(val, other)
    ensures other != Clamp(val, minimum, maximum).value ==>
              Distance(val, Clamp(val, minimum, maximum).value) < Distance(val, other)
  {
  }

  /** Clamping a value that was already clamped into the same range changes nothing. */
  lemma ClampIdempotent(val: real, minimum: real, maximum: real)
    requires minimum <= maximum
    ensures Clamp(Clamp(val, minimum, maximum).value, minimum, maximum) == Clamp(val, minimum, maximum)
  {
  }

  /**
   * The condition guarding the "input was clamped" notice in set_voltage
   * and set_current. The source compares the clamped value with itself, so
   * the notice is never shown for any number (only a NaN would show it).
   */
  function ClampNotice(clamped: real): (shown: bool)
    ensures !shown
  {
    clamped != clamped
  }

  /** The notice stays silent even when clamping did change the request (70 V becomes 60 V). */
  lemma ClampNoticeMissesClamping()
    ensures Clamp(70.0, 1.0, 60.0) == Success(60.0)
    ensures !ClampNotice(Clamp(70.0, 1.0, 60.0).value)
  {
  }

  /** Python's int() on a number: truncation toward zero. */
  function Trunc(x: real): (i: int)
    ensures 0.0 <= x ==> i as real <= x < i as real + 1.0
    ensures x < 0.0 ==> i as real - 1.0 < x <= i as real
  {
    if x >= 0.0 then x.Floor else -((-x).Floor)
  }

  /** On a non-negative value truncation and floor agree. */
  lemma TruncIsFloor(x: real)
    requires 0.0 <= x
    ensures Trunc(x) == x.Floor
  {
  }

  /**
   * _toBkStr: str(int(val * 10)).zfill(3). For 0 <= val < 100 that is three
   * digits reading as floor(val * 10); from 100 on the magnitude is not cut
   * to three digits but grows; a negative magnitude keeps its sign in front.
   */
  function ToBkStr(val: real): (s: string)
    ensures 0.0 <= val < 100.0 ==>
              |s| == 3 && AllDigits(s) && DecimalValue(s) == (val * 10.0).Floor
    ensures 100.0 <= val ==>
              |s| > 3 && AllDigits(s) && DecimalValue(s) == (val * 10.0).Floor
    ensures -0.1 < val < 0.0 ==> s == "000"
    ensures val <= -0.1 ==> |s| >= 3 && s[0] == '-'
  {
    var tenths := Trunc(val * 10.0);
    if 0.0 <= val then
      assert tenths == (val * 10.0).Floor;
      assert Pow10(3) == 1000;
      if tenths < 1000 then
        PaddedDecimal(tenths, 3);
        ZFill(PyStr(tenths), 3)
      else
        WideDecimal(tenths, 3);
        DecimalRoundTrip(tenths);
        ZFill(PyStr(tenths), 3)
    else
      ZFill(PyStr(tenths), 3)
  }

  /** The magnitude of a setpoint given in tenths reads back as those tenths. */
  lemma ToBkStrRoundTrip(tenths: nat)
    requires tenths < 1000
    ensures AllDigits(ToBkStr(tenths as real / 10.0))
    ensures DecimalValue(ToBkStr(tenths as real / 10.0)) == tenths
  {
    assert (tenths as real / 10.0) * 10.0 == tenths as real;
  }

  /** For a non-negative value the magnitude is the decimal of its whole tenths, zero-filled to three. */
  lemma NonNegativeMagnitude(val: real)
    requires 0.0 <= val
    ensures ToBkStr(val) == ZFill(Decimal((val * 10.0).Floor), 3)
  {
    TruncIsFloor(val * 10.0);
  }

  /** Sample magnitudes: 1 V, 60 V, 0 A, 15 A and 0.1 A. */
  lemma ToBkStrExamples()
    ensures ToBkStr(1.0) == "010"
    ensures ToBkStr(60.0) == "600"
    ensures ToBkStr(0.0) == "000"
    ensures ToBkStr(15.0) == "150"
    ensures ToBkStr(0.1) == "001"
  {
    Magnitude010();
    Magnitude600();
    Magnitude000();
    Magnitude150();
    Magnitude001();
  }

  /** 1 V is sent as "010". */
  lemma Magnitude010()
    ensures ToBkStr(1.0) == "010"
  {
    NonNegativeMagnitude(1.0);
    assert Decimal(1) == "1";
    assert Decimal(10) == "10";
    assert ZFill("10", 3) == "010";
  }

  /** 60 V is sent as "600". */
  lemma Magnitude600()
    ensures ToBkStr(60.0) == "600"
  {
    NonNegativeMagnitude(60.0);
    assert Decimal(6) == "6";
    assert Decimal(60) == "60";
    assert Decimal(600) == "600";
  }

  /** 0 A is sent as "000". */
  lemma Magnitude000()
    ensures ToBkStr(0.0) == "000"
  {
    NonNegativeMagnitude(0.0);
    assert Decimal(0) == "0";
    assert ZFill("0", 3) == "000";
  }

  /** 15 A is sent as "150". */
  lemma Magnitude150()
    ensures ToBkStr(15.0) == "150"
  {
    NonNegativeMagnitude(15.0);
    assert Decimal(1) == "1";
    assert Decimal(15) == "15";
    assert Decimal(150) == "150";
  }

  /** 0.1 A is sent as "001". */
  lemma Magnitude001()
    ensures ToBkStr(0.1) == "001"
  {
    NonNegativeMagnitude(0.1);
    assert (0.1 * 10.0).Floor == 1;
    assert Decimal(1) == "1";
    assert ZFill("1", 3) == "001";
  }
}
