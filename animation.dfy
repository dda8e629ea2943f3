/**
 * The angle arithmetic behind the cube's rotation about its y axis: from the
 * running time in Update, and from the pointer's x position in TrackingUpdate.
 * Everything is exact real arithmetic; the float and double rounding of the
 * original is not modelled.
 */
module Animation {

  /** DirectX::XM_PI. */
  const Pi: real := 3.141592654
  /** DirectX::XM_2PI. */
  const TwoPi: real := 6.283185307
  /** The renderer's m_degreesPerSecond. */
  const DegreesPerSecond: real := 45.0

  /** XMConvertToRadians. */
  function ToRadians(degrees: real): real {
    degrees * (Pi / 180.0)
  }

  /** C's conversion of a quotient to a whole number: truncation toward zero. */
  function Trunc(x: real): (r: int)
    ensures 0.0 <= x ==> 0 <= r && r as real <= x < r as real + 1.0
    ensures x <= 0.0 ==> r <= 0 && r as real - 1.0 < x <= r as real
  {
    if x >= 0.0 then x.Floor else -((-x).Floor)
  }

  /**
   * C's fmod for a positive divisor: what is left of x after taking away the
   * whole number of y's in x, rounded toward zero. The remainder keeps x's sign
   * and is smaller than y in size.
   */
  function FMod(x: real, y: real): (r: real)
    requires y > 0.0
    ensures 0.0 <= x ==> 0.0 <= r < y
    ensures x <= 0.0 ==> -y < r <= 0.0
  {
    var q := Trunc(x / y);
    FModBounds(x, y, q);
    x - y * q as real
  }

  /** The bounds on x - y·q that follow from the bounds on q as a truncated quotient. */
  lemma FModBounds(x: real, y: real, q: int)
    requires y > 0.0 && q == Trunc(x / y)
    ensures 0.0 <= x ==> 0.0 <= x - y * q as real < y
    ensures x <= 0.0 ==> -y < x - y * q as real <= 0.0
  {
    var z := x / y;
    QuotientSign(x, y);
    if 0.0 <= x {
      RemainderBelow(x, y, z, q as real);
    }
    if x <= 0.0 {
      RemainderAbove(x, y, z, q as real);
    }
  }

  /** A quotient by a positive number keeps the sign of the dividend, and multiplies back. */
  lemma QuotientSign(x: real, y: real)
    requires y > 0.0
    ensures 0.0 <= x ==> 0.0 <= x / y
    ensures x <= 0.0 ==> x / y <= 0.0
    ensures x == y * (x / y)
  {
  }

  /** Rounding the quotient z = x / y down to q leaves a remainder in [0, y). */
  lemma RemainderBelow(x: real, y: real, z: real, q: real)
    requires y > 0.0 && x == y * z && q <= z < q + 1.0
    ensures 0.0 <= x - y * q < y
  {
    var d := z - q;
    assert x - y * q == y * d;
    Positive(y, d);
    Positive(y, 1.0 - d);
    assert y * (1.0 - d) == y - y * d;
  }

  /** Rounding the quotient z = x / y up to q leaves a remainder in (-y, 0]. */
  lemma RemainderAbove(x: real, y: real, z: real, q: real)
    requires y > 0.0 && x == y * z && q - 1.0 < z <= q
    ensures -y < x - y * q <= 0.0
  {
    var d := q - z;
    assert x - y * q == -(y * d);
    Positive(y, d);
    Positive(y, 1.0 - d);
    assert y * (1.0 - d) == y - y * d;
  }

  /** The product of a positive and a non-negative number is non-negative, and positive when both are. */
  lemma Positive(a: real, b: real)
    requires a > 0.0 && b >= 0.0
    ensures a * b >= 0.0 && (b > 0.0 ==> a * b > 0.0)
  {
  }

  /** The angle turned through in `seconds` at `radiansPerSecond`. */
  function Rotation(seconds: real, radiansPerSecond: real): real {
    seconds * radiansPerSecond
  }

  /** Update's angle: the running time times the rotation speed, folded into one turn. */
  function TimeAngle(totalSeconds: real, degreesPerSecond: real): real {
    FMod(Rotation(totalSeconds, ToRadians(degreesPerSecond)), TwoPi)
  }

  /** TrackingUpdate's angle: two full turns across the width of the output. */
  function TrackingAngle(positionX: real, outputWidth: real): (r: real)
    requires outputWidth > 0.0
    ensures 0.0 <= positionX <= outputWidth ==> 0.0 <= r <= 2.0 * TwoPi
  {
    TrackingAngleRange(positionX, outputWidth);
    TwoPi * 2.0 * positionX / outputWidth
  }

  lemma TrackingAngleRange(positionX: real, outputWidth: real)
    requires outputWidth > 0.0
    ensures 0.0 <= positionX <= outputWidth ==> 0.0 <= TwoPi * 2.0 * positionX / outputWidth <= 2.0 * TwoPi
  {
    if 0.0 <= positionX <= outputWidth {
      ShareOf(TwoPi * 2.0, positionX, outputWidth);
    }
  }

  /** The share x / w of c, for x between 0 and w, lies between 0 and c. */
  lemma ShareOf(c: real, x: real, w: real)
    requires c > 0.0 && 0.0 <= x <= w && w > 0.0
    ensures 0.0 <= c * x / w <= c
  {
    assert c * x / w == c * (x / w);
    assert x / w <= 1.0;
  }

  // ---------------------------------------------------------------------------
  // Lemmas

  /** For a running time that does not go negative, Update's angle lies in [0, 2π). */
  lemma TimeAngleInRange(totalSeconds: real, degreesPerSecond: real)
    requires totalSeconds >= 0.0 && degreesPerSecond >= 0.0
    ensures 0.0 <= TimeAngle(totalSeconds, degreesPerSecond) < TwoPi
  {
    var rps := ToRadians(degreesPerSecond);
    assert rps >= 0.0;
    assert Rotation(totalSeconds, rps) >= 0.0;
  }

  /** Adding one whole turn to a non-negative angle does not change its remainder. */
  lemma {:induction false} FModPeriodic(x: real, y: real)
    requires x >= 0.0 && y > 0.0
    ensures FMod(x + y, y) == FMod(x, y)
  {
    var q := Trunc(x / y);
    assert (x + y) / y == x / y + y / y;
    assert (x + y) / y == x / y + 1.0;
    assert Trunc((x + y) / y) == q + 1;
    assert FMod(x + y, y) == x + y - y * (q + 1) as real;
  }

  /** An angle already inside [0, y) is its own remainder. */
  lemma FModOfSmall(x: real, y: real)
    requires 0.0 <= x < y
    ensures FMod(x, y) == x
  {
    QuotientSign(x, y);
    assert x / y < 1.0 by {
      if x / y >= 1.0 {
        Positive(y, x / y - 1.0);
        assert y * (x / y - 1.0) == x - y;
      }
    }
    assert Trunc(x / y) == 0;
  }

  /** At 45 degrees a second, four seconds in the cube has turned half way round. */
  lemma FourSecondsIsHalfTurn()
    ensures TimeAngle(4.0, DegreesPerSecond) == Pi
  {
    assert Rotation(4.0, ToRadians(DegreesPerSecond)) == Pi;
    FModOfSmall(Pi, TwoPi);
  }

  /** Moving the pointer right never turns the cube less. */
  lemma TrackingAngleMonotonic(x1: real, x2: real, outputWidth: real)
    requires outputWidth > 0.0 && x1 <= x2
    ensures TrackingAngle(x1, outputWidth) <= TrackingAngle(x2, outputWidth)
  {
    var c := TwoPi * 2.0 / outputWidth;
    assert TwoPi * 2.0 * x1 / outputWidth == c * x1;
    assert TwoPi * 2.0 * x2 / outputWidth == c * x2;
  }

  /** A quarter of the way across the output, the cube has turned half way round; at the far edge, twice round. */
  lemma TrackingLandmarks(outputWidth: real)
    requires outputWidth > 0.0
    ensures TrackingAngle(outputWidth / 4.0, outputWidth) == TwoPi / 2.0
    ensures TrackingAngle(outputWidth, outputWidth) == 2.0 * TwoPi
  {
    assert TwoPi * 2.0 * (outputWidth / 4.0) / outputWidth == TwoPi / 2.0;
    assert TwoPi * 2.0 * outputWidth / outputWidth == 2.0 * TwoPi;
  }
}
