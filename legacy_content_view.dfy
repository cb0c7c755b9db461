/** The first version of the dashboard (`ContentView`): its own, older phase
    table, a four-day element cycle, and private copies of the gardening
    calendar, the zodiac classifier and the trend and direction helpers. Its
    nested `MoonPhase` and `ZodiacSign` enums have the same cases and raw
    values as the shared ones, so the shared datatypes stand for them. */
module LegacyContent {
  import opened SwiftCore
  import opened MoonPhases
  import opened ZodiacSigns
  import GardeningLogic
  import Astronomy

  /** The older `MoonPhase.fromDegree`: no normalisation, five exact angles,
      four bands that leave one-degree gaps after 0, 45, 90 and 135, and
      `error` for everything else. */
  function LegacyPhase(degrees: real): (p: MoonPhase)
    ensures p != WaxingCrescent
    ensures p == FullMoon <==> degrees == 0.0
    ensures p == FirstQuarter <==> degrees == 45.0
    ensures p == LastQuarter <==> degrees == 90.0
    ensures p == WaningCrescent <==> degrees == 135.0
    ensures p == NewMoon <==> degrees == 180.0
    ensures p == WaningGibbous <==> 1.0 <= degrees < 45.0 || 46.0 <= degrees < 90.0
    ensures p == WaxingGibbous <==> 91.0 <= degrees < 135.0 || 136.0 <= degrees < 180.0
    ensures p == Error <==>
              degrees < 0.0 || 0.0 < degrees < 1.0 || 45.0 < degrees < 46.0
              || 90.0 < degrees < 91.0 || 135.0 < degrees < 136.0 || 180.0 < degrees
  {
    if degrees == 0.0 then FullMoon
    else if 1.0 <= degrees < 45.0 then WaningGibbous
    else if degrees == 45.0 then FirstQuarter
    else if 46.0 <= degrees < 90.0 then WaningGibbous
    else if degrees == 90.0 then LastQuarter
    else if 91.0 <= degrees < 135.0 then WaxingGibbous
    else if degrees == 135.0 then WaningCrescent
    else if 136.0 <= degrees < 180.0 then WaxingGibbous
    else if degrees == 180.0 then NewMoon
    else Error
  }

  /** The exact angles, and how far the old table is from the current one. */
  lemma LegacyPhaseExamples()
    ensures LegacyPhase(0.0) == FullMoon && LegacyPhase(45.0) == FirstQuarter
    ensures LegacyPhase(90.0) == LastQuarter && LegacyPhase(135.0) == WaningCrescent
    ensures LegacyPhase(180.0) == NewMoon
    ensures LegacyPhase(0.5) == Error && LegacyPhase(-10.0) == Error && LegacyPhase(200.0) == Error
    ensures LegacyPhase(0.0) != MoonPhases.FromDegree(0.0)
  {
  }

  /** The legacy cycle's four names, by `(day - 1) % 4`. */
  const Cycle: seq<string> := ["racine", "fleur", "feuille", "fruit"]

  /** `getElementForDay(_:)`: for a day from 1 on, the element follows the
      four-day cycle root, flower, leaf, fruit; Swift's truncating `%` makes
      the remainder negative for most days below 1, which gives "rien". */
  function ElementForDay(day: int): (element: string)
    ensures day >= 1 || (day - 1) % 4 == 0 ==> element == Cycle[(day - 1) % 4]
    ensures element == "rien" <==> day < 1 && (day - 1) % 4 != 0
  {
    match IntRem(day - 1, 4)
    case 0 => "racine"
    case 1 => "fleur"
    case 2 => "feuille"
    case 3 => "fruit"
    case _ => "rien"
  }

  /** From day 1 on the cycle repeats every four days. */
  lemma {:induction false} ElementCycle(day: int)
    requires day >= 1
    ensures ElementForDay(day + 4) == ElementForDay(day)
  {
    assert (day + 4 - 1) % 4 == (day - 1) % 4;
  }

  /** Day 0 is not in the cycle; day -3 is, because -4 % 4 is 0. */
  lemma ElementForDayBelowOne()
    ensures ElementForDay(0) == "rien" && ElementForDay(-3) == "racine"
  {
  }

  /** The legacy copy of the gardening calendar; it agrees with the shared
      one on every pair. */
  function LegacyGardeningDay(phase: MoonPhase, sign: ZodiacSign): (day: string)
    ensures day == GardeningLogic.GetGardeningDay(phase, sign)
  {
    match (phase, sign)
    case (NewMoon, Aries) | (LastQuarter, Cancer) | (LastQuarter, Scorpio)
       | (WaningGibbous, Scorpio) | (WaxingCrescent, Taurus) | (WaxingCrescent, Virgo)
       | (WaxingGibbous, Capricorn) | (WaxingGibbous, Pisces) =>
      "Jour racine"
    case (NewMoon, Taurus) | (FirstQuarter, Cancer) | (FirstQuarter, Scorpio)
       | (FullMoon, Aries) | (FullMoon, Leo) | (FullMoon, Sagittarius)
       | (FullMoon, Aquarius) | (WaningCrescent, Pisces) =>
      "Jour feuille"
    case (FirstQuarter, Aries) | (FirstQuarter, Leo) | (FirstQuarter, Sagittarius)
       | (WaxingGibbous, Gemini) | (WaxingGibbous, Libra) | (WaningCrescent, Taurus)
       | (WaningCrescent, Virgo) | (WaningCrescent, Capricorn) =>
      "Jour fruit"
    case (NewMoon, Gemini) | (NewMoon, Virgo) | (NewMoon, Sagittarius) | (NewMoon, Pisces)
       | (FirstQuarter, Taurus) | (FirstQuarter, Virgo) | (FirstQuarter, Capricorn)
       | (FullMoon, Gemini) | (FullMoon, Libra) | (WaningCrescent, Aries)
       | (WaningCrescent, Leo) | (WaningCrescent, Sagittarius) | (WaningCrescent, Aquarius) =>
      "Jour fleur"
    case _ =>
      "Autre jour"
  }

  /** The legacy copy of `ZodiacSign.fromDegree`, with the same trap; it
      agrees with the shared classifier wherever either is defined. */
  function LegacySign(degree: real): (s: ZodiacSign)
    requires ZodiacSigns.IndexInBounds(degree)
    ensures s == ZodiacSigns.FromDegree(degree)
  {
    var adjustedDegree := if degree < 0.0 then degree + 360.0 else degree;
    var signNumber := IntRem(Floor(adjustedDegree / 30.0), 12);
    AllCases[signNumber]
  }

  /** The legacy `getMoonDirection`. */
  function LegacyDirection(jd: real, ascendingNode: real): (direction: string)
    ensures direction == Astronomy.MoonDirection(jd, ascendingNode)
  {
    if jd < ascendingNode then "Descendante" else "Montante"
  }

  /** The legacy `getMoonTrend`: the date one month earlier is force-unwrapped,
      so a calendar failure traps instead of giving "Inconnu". */
  function LegacyTrend(currentFraction: real, previousFraction: Option<real>): (trend: string)
    requires previousFraction.Some?
    ensures trend == "Croissante" <==> currentFraction > previousFraction.value
    ensures trend != "Inconnu"
    ensures trend == Astronomy.MoonTrend(currentFraction, previousFraction)
  {
    if currentFraction > previousFraction.value then "Croissante" else "Décroissante"
  }

  class ContentView {
    var moonPhase: string
    var element: string

    /** The two `@State` fields start empty. */
    constructor ()
      ensures moonPhase == "" && element == ""
    {
      moonPhase, element := "", "";
    }

    /** `onAppear`: shows the legacy phase of the Moon's phase angle and the
        gardening day of that phase with the sign of the Moon's apparent
        longitude. */
    method OnAppear(phaseAngle: real, apparentLongitude: real)
      requires ZodiacSigns.IndexInBounds(apparentLongitude)
      modifies this
      ensures moonPhase == MoonPhases.RawValue(LegacyPhase(phaseAngle))
      ensures element == GardeningLogic.GetGardeningDay(
                LegacyPhase(phaseAngle), ZodiacSigns.FromDegree(apparentLongitude))
      ensures LegacyPhase(phaseAngle) == Error ==> element == GardeningLogic.Other
    {
      moonPhase := MoonPhases.RawValue(LegacyPhase(phaseAngle));
      element := LegacyGardeningDay(LegacyPhase(phaseAngle), LegacySign(apparentLongitude));
    }
  }
}
