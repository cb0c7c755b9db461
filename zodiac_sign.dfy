/** Zodiac sign classification (`ZodiacSign` and its `fromDegree`): one
    correction of a negative longitude by a full turn, then 30° bands counted
    with `floor`, reduced by Swift's truncating `% 12` and used as an index into
    the cases in declaration order. */
module ZodiacSigns {
  import opened SwiftCore

  datatype ZodiacSign =
    | Aries | Taurus | Gemini | Cancer | Leo | Virgo
    | Libra | Scorpio | Sagittarius | Capricorn | Aquarius | Pisces

  /** `ZodiacSign.allCases`: the cases in declaration order. */
  const AllCases: seq<ZodiacSign> :=
    [Aries, Taurus, Gemini, Cancer, Leo, Virgo,
     Libra, Scorpio, Sagittarius, Capricorn, Aquarius, Pisces]

  /** The enum's raw value: the French name shown on screen. */
  function RawValue(s: ZodiacSign): string {
    match s
    case Aries => "Bélier"
    case Taurus => "Taureau"
    case Gemini => "Gémeaux"
    case Cancer => "Cancer"
    case Leo => "Lion"
    case Virgo => "Vierge"
    case Libra => "Balance"
    case Scorpio => "Scorpion"
    case Sagittarius => "Sagittaire"
    case Capricorn => "Capricorne"
    case Aquarius => "Verseau"
    case Pisces => "Poissons"
  }

  /** `ZodiacSign(rawValue:)`, which Swift derives from the raw values: the
      sign with that exact name, if any. */
  function Parse(name: string): (s: Option<ZodiacSign>)
  {
    if name == "Bélier" then Some(Aries)
    else if name == "Taureau" then Some(Taurus)
    else if name == "Gémeaux" then Some(Gemini)
    else if name == "Cancer" then Some(Cancer)
    else if name == "Lion" then Some(Leo)
    else if name == "Vierge" then Some(Virgo)
    else if name == "Balance" then Some(Libra)
    else if name == "Scorpion" then Some(Scorpio)
    else if name == "Sagittaire" then Some(Sagittarius)
    else if name == "Capricorne" then Some(Capricorn)
    else if name == "Verseau" then Some(Aquarius)
    else if name == "Poissons" then Some(Pisces)
    else None
  }

  /** The raw values are distinct, as Swift requires: every sign's name
      parses back to that sign. */
  lemma RawValueRoundTrip(s: ZodiacSign)
    ensures Parse(RawValue(s)) == Some(s)
  {
  }

  /** A sign's position in declaration order, so the first degree of its band
      is 30 times this. */
  function Ordinal(s: ZodiacSign): (i: nat)
    ensures i < |AllCases| && AllCases[i] == s
  {
    match s
    case Aries => 0 case Taurus => 1 case Gemini => 2 case Cancer => 3
    case Leo => 4 case Virgo => 5 case Libra => 6 case Scorpio => 7
    case Sagittarius => 8 case Capricorn => 9 case Aquarius => 10 case Pisces => 11
  }

  /** The longitude after the single correction of a negative value. */
  function Adjusted(x: real): real {
    if x < 0.0 then x + 360.0 else x
  }

  /** `signNumber`: the band number reduced by Swift's truncating `% 12`. */
  function SignNumber(x: real): (k: int)
    ensures -12 < k < 12
  {
    IntRem(Floor(Adjusted(x) / 30.0), 12)
  }

  /** `allCases[signNumber]` does not trap: the index is not negative. */
  predicate IndexInBounds(x: real) {
    0 <= SignNumber(x)
  }

  /** `ZodiacSign.fromDegree`, defined where the array access does not trap.
      On [0, 360) the result is the sign whose 30° band holds `x`. */
  function FromDegree(x: real): (s: ZodiacSign)
    requires IndexInBounds(x)
    ensures 0.0 <= x < 360.0 ==>
              30.0 * Ordinal(s) as real <= x < 30.0 * Ordinal(s) as real + 30.0
  {
    AllCases[SignNumber(x)]
  }

  /** Every longitude from one negative turn upward is safe to classify, so
      the index always lies in 0..11 there. */
  lemma {:induction false} IndexInBoundsFromMinusOneTurn(x: real)
    requires x >= -360.0
    ensures IndexInBounds(x) && 0 <= SignNumber(x) < 12
  {
    assert Adjusted(x) >= 0.0;
  }

  /** Below one negative turn the single correction is not enough: -370 gives
      band -1, Swift's `-1 % 12` is -1, and the array access traps. Only the
      first 30° of each lower turn escape: from -720 up to -690 the band is a
      multiple of 12, so -720 and -710 both land on Aries. */
  lemma TrapsBelowMinusOneTurn()
    ensures !IndexInBounds(-370.0)
    ensures IndexInBounds(-720.0) && FromDegree(-720.0) == Aries
    ensures IndexInBounds(-710.0) && FromDegree(-710.0) == Aries
  {
    assert Floor(-10.0 / 30.0) == -1;
    assert Floor(-360.0 / 30.0) == -12;
  }

  /** The Euclidean residue of `x` modulo 360. */
  function Residue(x: real): (r: real)
    ensures 0.0 <= r < 360.0
  {
    x - 360.0 * Floor(x / 360.0) as real
  }

  /** Reference reading: from one negative turn upward, the sign is the one
      whose 30° band holds the longitude's residue modulo 360. */
  lemma {:induction false} SignBand(x: real)
    requires x >= -360.0
    ensures IndexInBounds(x)
    ensures 30.0 * Ordinal(FromDegree(x)) as real <= Residue(x)
              < 30.0 * Ordinal(FromDegree(x)) as real + 30.0
  {
    IndexInBoundsFromMinusOneTurn(x);
    var a := Adjusted(x);
    var q := Floor(a / 360.0);
    var r := a - 360.0 * q as real;
    assert 0 <= q;
    assert r == Residue(x) by {
      if x < 0.0 { assert Floor(x / 360.0) == q - 1; }
    }
    var b := Floor(r / 30.0);
    assert 0 <= b < 12;
    assert Floor(a / 30.0) == 12 * q + b by {
      assert a / 30.0 == 12.0 * q as real + r / 30.0;
    }
    SwiftCore.ModUnique(12 * q + b, 12, q, b);
    assert SignNumber(x) == b;
  }

  /** The single correction: a longitude in [-360, 0) gets the sign of the same
      longitude one turn later. */
  lemma {:induction false} NegativeTurn(x: real)
    requires -360.0 <= x < 0.0
    ensures IndexInBounds(x) && IndexInBounds(x + 360.0)
    ensures FromDegree(x) == FromDegree(x + 360.0)
  {
    IndexInBoundsFromMinusOneTurn(x);
    IndexInBoundsFromMinusOneTurn(x + 360.0);
  }

  /** The `% 12`: for a non-negative longitude, a full turn more gives the same sign. */
  lemma {:induction false} PositiveTurn(x: real)
    requires 0.0 <= x
    ensures IndexInBounds(x) && IndexInBounds(x + 360.0)
    ensures FromDegree(x + 360.0) == FromDegree(x)
  {
    IndexInBoundsFromMinusOneTurn(x);
    IndexInBoundsFromMinusOneTurn(x + 360.0);
    var f := Floor(x / 30.0);
    assert Floor((x + 360.0) / 30.0) == f + 12 by {
      assert (x + 360.0) / 30.0 == x / 30.0 + 12.0;
    }
    assert 0 <= f;
    SwiftCore.ModUnique(f + 12, 12, f / 12 + 1, f % 12);
    assert IntRem(f + 12, 12) == IntRem(f, 12);
  }

  /** The band edges. */
  lemma BandEdges()
    ensures FromDegree(0.0) == Aries && FromDegree(29.999) == Aries
    ensures FromDegree(30.0) == Taurus && FromDegree(359.999) == Pisces
    ensures FromDegree(360.0) == Aries && FromDegree(-10.0) == Pisces
  {
    assert Floor(29.999 / 30.0) == 0;
    assert Floor(359.999 / 30.0) == 11;
    assert Floor(350.0 / 30.0) == 11;
  }
}
