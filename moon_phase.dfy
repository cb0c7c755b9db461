/** Moon phase classification (`MoonPhase` and its `fromDegree`): an angle in
    degrees is brought into [0, 360) and then bucketed into eight half-open
    bands, with a defensive `error` case for anything the bands miss. */
module MoonPhases {
  import opened SwiftCore

  /** The eight phases in declaration order, then the defensive `error` case. */
  datatype MoonPhase =
    | NewMoon | WaxingCrescent | FirstQuarter | WaxingGibbous
    | FullMoon | WaningGibbous | LastQuarter | WaningCrescent
    | Error

  /** The enum's raw value: the French name shown on screen. */
  function RawValue(p: MoonPhase): string {
    match p
    case NewMoon => "Nouvelle lune"
    case WaxingCrescent => "Premier croissant"
    case FirstQuarter => "Premier quartier"
    case WaxingGibbous => "Gibbeuse croissante"
    case FullMoon => "Pleine lune"
    case WaningGibbous => "Gibbeuse décroissante"
    case LastQuarter => "Dernier quartier"
    case WaningCrescent => "Dernier croissant"
    case Error => "Erreur lors du calcul de la phase lunaire"
  }

  /** `MoonPhase(rawValue:)`, which Swift derives from the raw values: the
      phase with that exact name, if any. */
  function Parse(name: string): (p: Option<MoonPhase>)
  {
    if name == "Nouvelle lune" then Some(NewMoon)
    else if name == "Premier croissant" then Some(WaxingCrescent)
    else if name == "Premier quartier" then Some(FirstQuarter)
    else if name == "Gibbeuse croissante" then Some(WaxingGibbous)
    else if name == "Pleine lune" then Some(FullMoon)
    else if name == "Gibbeuse décroissante" then Some(WaningGibbous)
    else if name == "Dernier quartier" then Some(LastQuarter)
    else if name == "Dernier croissant" then Some(WaningCrescent)
    else if name == "Erreur lors du calcul de la phase lunaire" then Some(Error)
    else None
  }

  /** The raw values are distinct, as Swift requires: every phase's name
      parses back to that phase. */
  lemma RawValueRoundTrip(p: MoonPhase)
    ensures Parse(RawValue(p)) == Some(p)
  {
  }

  /** The angle `fromDegree` switches on: the truncating remainder by 360,
      moved up by a full turn when negative. Over exact reals this is the
      Euclidean residue of `x` modulo 360. */
  function Normalize(x: real): (n: real)
    ensures 0.0 <= n < 360.0
    ensures n == x - 360.0 * Floor(x / 360.0) as real
  {
    var d := TruncatingRemainder360(x);
    var q, t := x / 360.0, Trunc(x / 360.0);
    assert d == 360.0 * (q - t as real);
    assert Floor(q) == if d < 0.0 then t - 1 else t;
    if d < 0.0 then d + 360.0 else d
  }

  /** `MoonPhase.fromDegree`: the band of the normalised angle. The `error`
      fallback is never taken, because the bands tile [0, 360). */
  function FromDegree(x: real): (p: MoonPhase)
    ensures p != Error
  {
    var n := Normalize(x);
    if (0.0 <= n < 6.0) || (354.0 <= n < 360.0) then NewMoon
    else if 6.0 <= n < 84.0 then WaxingCrescent
    else if 84.0 <= n < 96.0 then FirstQuarter
    else if 96.0 <= n < 174.0 then WaxingGibbous
    else if 174.0 <= n < 186.0 then FullMoon
    else if 186.0 <= n < 264.0 then WaningGibbous
    else if 264.0 <= n < 276.0 then LastQuarter
    else if 276.0 <= n < 354.0 then WaningCrescent
    else Error
  }

  /** Normalising changes an angle only by whole turns, and leaves [0, 360) alone. */
  lemma NormalizeFixesCircle(x: real)
    ensures 0.0 <= x < 360.0 ==> Normalize(x) == x
    ensures IsWhole((x - Normalize(x)) / 360.0)
  {
  }

  /** Adding whole turns never changes the phase. */
  lemma {:induction false} FromDegreePeriodic(x: real, k: int)
    ensures Normalize(x + 360.0 * k as real) == Normalize(x)
    ensures FromDegree(x + 360.0 * k as real) == FromDegree(x)
  {
    var y := x + 360.0 * k as real;
    assert y / 360.0 == x / 360.0 + k as real;
    var f := Floor(x / 360.0);
    assert Floor(y / 360.0) == f + k;
  }

  /** The four principal phases: new, first quarter, full and last quarter. */
  predicate IsPrincipal(p: MoonPhase) {
    p == NewMoon || p == FirstQuarter || p == FullMoon || p == LastQuarter
  }

  /** Each phase's nominal angle: a multiple of 45°, in declaration order. */
  function Centre(p: MoonPhase): real
    requires p != Error
  {
    match p
    case NewMoon => 0.0
    case WaxingCrescent => 45.0
    case FirstQuarter => 90.0
    case WaxingGibbous => 135.0
    case FullMoon => 180.0
    case WaningGibbous => 225.0
    case LastQuarter => 270.0
    case WaningCrescent => 315.0
  }

  /** Half the width of a phase's window: 6° for the principal phases (about
      half a day of lunar motion), 39° for the crescents and gibbous phases. */
  function HalfWidth(p: MoonPhase): real {
    if IsPrincipal(p) then 6.0 else 39.0
  }

  /** Signed offset of `n` from `c` around the circle, in [-180, 180). */
  function Offset(n: real, c: real): (d: real)
    requires 0.0 <= n < 360.0 && 0.0 <= c < 360.0
    ensures -180.0 <= d < 180.0
    ensures IsWhole((n - c - d) / 360.0)
  {
    var d := n - c;
    if d >= 180.0 then d - 360.0 else if d < -180.0 then d + 360.0 else d
  }

  /** Reference reading of the band table: a phase is returned exactly when the
      normalised angle lies in the half-open window of its half-width around its
      centre; the principal phases get the 12° windows around 0, 90, 180, 270. */
  lemma {:induction false} PhaseWindow(x: real, p: MoonPhase)
    requires p != Error
    ensures FromDegree(x) == p <==>
              -HalfWidth(p) <= Offset(Normalize(x), Centre(p)) < HalfWidth(p)
  {
  }

  /** The band edges: lower bounds are inclusive, upper bounds exclusive, and a
      negative angle counts from the end of the circle. */
  lemma BandEdges()
    ensures FromDegree(0.0) == NewMoon && FromDegree(5.999) == NewMoon
    ensures FromDegree(354.0) == NewMoon && FromDegree(360.0) == NewMoon
    ensures FromDegree(6.0) == WaxingCrescent && FromDegree(83.999) == WaxingCrescent
    ensures FromDegree(84.0) == FirstQuarter && FromDegree(95.999) == FirstQuarter
    ensures FromDegree(96.0) == WaxingGibbous
    ensures FromDegree(174.0) == FullMoon && FromDegree(186.0) == WaningGibbous
    ensures FromDegree(264.0) == LastQuarter && FromDegree(276.0) == WaningCrescent
    ensures FromDegree(353.999) == WaningCrescent
    ensures FromDegree(-10.0) == WaningCrescent && FromDegree(-360.0) == NewMoon
  {
  }
}
