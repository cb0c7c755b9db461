/** The dashboard's view model (`AstronomyViewModel`): `calculateData` fills
    twelve display fields from one set of ephemeris readings, through the phase
    and sign classifiers, the gardening calendar and four small icon and
    comparison helpers. */
module Astronomy {
  import opened SwiftCore
  import opened MoonPhases
  import opened ZodiacSigns
  import GardeningLogic

  /** What the ephemeris library reports for the Moon at the view model's
      instant: phase angle and apparent ecliptic longitude in degrees, the
      illuminated fraction, and the Julian days of the next ascending and
      descending node passages. */
  datatype MoonReadings = MoonReadings(
    phaseAngle: real,
    apparentLongitude: real,
    illuminatedFraction: real,
    ascendingNode: real,
    descendingNode: real)

  const WarningIcon := "exclamationmark.triangle"

  /** `getMoonPhaseIcon(phase:)`: one symbol per phase, the warning triangle
      for `error`. */
  function MoonPhaseIcon(phase: MoonPhase): (icon: string)
    ensures icon == WarningIcon <==> phase == Error
  {
    match phase
    case NewMoon => "moonphase.new.moon"
    case WaxingCrescent => "moonphase.waxing.crescent"
    case FirstQuarter => "moonphase.first.quarter"
    case WaxingGibbous => "moonphase.waxing.gibbous"
    case FullMoon => "moonphase.full.moon"
    case WaningGibbous => "moonphase.waning.gibbous"
    case LastQuarter => "moonphase.last.quarter"
    case WaningCrescent => "moonphase.waning.crescent"
    case Error => WarningIcon
  }

  /** The nine phases get nine different symbols. */
  lemma {:induction false} MoonPhaseIconInjective(p: MoonPhase, q: MoonPhase)
    ensures MoonPhaseIcon(p) == MoonPhaseIcon(q) ==> p == q
  {
    var a, b := MoonPhaseIcon(p), MoonPhaseIcon(q);
    if a == b {
      assert |a| == |b| && a[10] == b[10] && a[17] == b[17];
    }
  }

  /** `getElementIcon(element:)`: fruit days get "apple.logo"; unknown text
      falls back to the leaf. */
  function ElementIcon(element: string): (icon: string)
    ensures icon in {"carrot", "leaf", "apple.logo", "camera.macro"}
    ensures icon == "carrot" <==> element == GardeningLogic.Root
    ensures icon == "apple.logo" <==> element == GardeningLogic.Fruit
    ensures icon == "camera.macro" <==> element == GardeningLogic.Flower
  {
    GardeningLogic.DayKindsDistinct();
    if element == GardeningLogic.Root then "carrot"
    else if element == GardeningLogic.Leaf then "leaf"
    else if element == GardeningLogic.Fruit then "apple.logo"
    else if element == GardeningLogic.Flower then "camera.macro"
    else "leaf"
  }

  /** `getMoonDirection(julianDay:)`: descending before the next ascending
      node passage, ascending from it on. */
  function MoonDirection(jd: real, ascendingNode: real): (direction: string)
    ensures direction in {"Descendante", "Montante"}
    ensures direction == "Descendante" <==> jd < ascendingNode
  {
    if jd < ascendingNode then "Descendante" else "Montante"
  }

  /** `getMoonTrend(julianDay:)`: waxing when the illuminated fraction grew
      since one month earlier (a tie counts as waning), "Inconnu" when the
      calendar cannot produce the earlier date. */
  function MoonTrend(currentFraction: real, previousFraction: Option<real>): (trend: string)
    ensures trend == "Inconnu" <==> previousFraction.None?
    ensures trend == "Croissante" <==>
              previousFraction.Some? && currentFraction > previousFraction.value
    ensures trend == "Décroissante" <==>
              previousFraction.Some? && currentFraction <= previousFraction.value
  {
    assert "Décroissante"[0] != "Croissante"[0] && "Croissante"[0] != "Inconnu"[0] && "Décroissante"[0] != "Inconnu"[0];
    match previousFraction
    case None => "Inconnu"
    case Some(previous) =>
      if currentFraction > previous then "Croissante" else "Décroissante"
  }

  /** The view model's private copy of the gardening calendar; it agrees
      with the shared calendar on every pair. */
  function GetGardeningDay(phase: MoonPhase, sign: ZodiacSign): (day: string)
    ensures day == GardeningLogic.GetGardeningDay(phase, sign)
  {
    match (phase, sign)
    case (NewMoon, Aries) | (LastQuarter, Cancer) | (LastQuarter, Scorpio)
       | (WaningGibbous, Scorpio) | (WaxingCrescent, Taurus) | (WaxingCrescent, Virgo)
       | (WaxingGibbous, Capricorn) | (WaxingGibbous, Pisces) =>
      "Jour racine"
    case (NewMoon, Taurus) | (FirstQuarter, Cancer) | (FirstQuarter, Scorpio)
       | (FullMoon, Aries) | (FullMoon, Leo) | (FullMoon, Sagittarius)
       | (FullMoon, Aquarius) | (WaningCrescent, Pisces) =>
      "Jour feuille"
    case (FirstQuarter, Aries) | (FirstQuarter, Leo) | (FirstQuarter, Sagittarius)
       | (WaxingGibbous, Gemini) | (WaxingGibbous, Libra) | (WaningCrescent, Taurus)
       | (WaningCrescent, Virgo) | (WaningCrescent, Capricorn) =>
      "Jour fruit"
    case (NewMoon, Gemini) | (NewMoon, Virgo) | (NewMoon, Sagittarius) | (NewMoon, Pisces)
       | (FirstQuarter, Taurus) | (FirstQuarter, Virgo) | (FirstQuarter, Capricorn)
       | (FullMoon, Gemini) | (FullMoon, Libra) | (WaningCrescent, Aries)
       | (WaningCrescent, Leo) | (WaningCrescent, Sagittarius) | (WaningCrescent, Aquarius) =>
      "Jour fleur"
    case _ =>
      "Autre jour"
  }

  /** The trend arrow: up-right exactly for a waxing Moon. */
  function TrendIcon(trend: string): (icon: string)
    ensures icon == "arrow.up.right" <==> trend == "Croissante"
  {
    assert "arrow.up.right"[6] != "arrow.down.right"[6];
    if trend == "Croissante" then "arrow.up.right" else "arrow.down.right"
  }

  /** The direction arrow: up exactly for an ascending Moon. */
  function DirectionIcon(direction: string): (icon: string)
    ensures icon == "arrow.up" <==> direction == "Montante"
  {
    assert "arrow.up"[6] != "arrow.down"[6];
    if direction == "Montante" then "arrow.up" else "arrow.down"
  }

  class AstronomyViewModel {
    var moonPhase: string
    var element: string
    var moonIlluminatedFraction: real
    var moonTrend: string
    var moonDirection: string
    var ascendingNodeDate: string
    var descendingNodeDate: string
    var moonSign: string
    var moonPhaseIcon: string
    var moonTrendIcon: string
    var moonDirectionIcon: string
    var elementIcon: string

    /** The instant the view model was created, as a Julian day. */
    const jd: real
    /** The ephemeris readings for that instant. */
    const moon: MoonReadings

    /** The icons agree with the texts they illustrate. */
    ghost predicate IconsAgree()
      reads this
    {
      && (moonTrendIcon == "arrow.up.right" <==> moonTrend == "Croissante")
      && (moonDirectionIcon == "arrow.up" <==> moonDirection == "Montante")
      && elementIcon == ElementIcon(element)
      && moonPhaseIcon != WarningIcon
    }

    /** The twelve fields as `calculateData` leaves them: phase, sign and
        gardening day all come from the same phase and sign; `previousFraction`
        is the illuminated fraction one month earlier, if the calendar could
        compute that date, and `formatDate` renders a Julian day as text. */
    ghost predicate Calculated(previousFraction: Option<real>, formatDate: real -> string)
      reads this
      requires ZodiacSigns.IndexInBounds(moon.apparentLongitude)
    {
      var phase := MoonPhases.FromDegree(moon.phaseAngle);
      var sign := ZodiacSigns.FromDegree(moon.apparentLongitude);
      && moonPhase == MoonPhases.RawValue(phase)
      && element == GardeningLogic.GetGardeningDay(phase, sign)
      && moonIlluminatedFraction == moon.illuminatedFraction
      && moonTrend == MoonTrend(moon.illuminatedFraction, previousFraction)
      && moonDirection == MoonDirection(jd, moon.ascendingNode)
      && ascendingNodeDate == formatDate(moon.ascendingNode)
      && descendingNodeDate == formatDate(moon.descendingNode)
      && moonSign == ZodiacSigns.RawValue(sign)
      && moonPhaseIcon == MoonPhaseIcon(phase)
      && moonTrendIcon == TrendIcon(moonTrend)
      && moonDirectionIcon == DirectionIcon(moonDirection)
      && elementIcon == ElementIcon(element)
    }

    /** `init()`: the property defaults, then one `calculateData`. */
    constructor (jd: real, moon: MoonReadings, previousFraction: Option<real>,
                 formatDate: real -> string)
      requires ZodiacSigns.IndexInBounds(moon.apparentLongitude)
      ensures this.jd == jd && this.moon == moon
      ensures Calculated(previousFraction, formatDate) && IconsAgree()
    {
      moonPhase := "";
      element := "";
      moonIlluminatedFraction := 0.0;
      moonTrend := "";
      moonDirection := "";
      ascendingNodeDate := "";
      descendingNodeDate := "";
      moonSign := "";
      moonPhaseIcon := "moon.stars";
      moonTrendIcon := "arrow.up";
      moonDirectionIcon := "arrow.up.right";
      elementIcon := "leaf";
      this.jd := jd;
      this.moon := moon;
      new;
      CalculateData(previousFraction, formatDate);
    }

    /** `calculateData()`: every field is overwritten from the readings; the
        icon fields read the texts assigned just before them. */
    method CalculateData(previousFraction: Option<real>, formatDate: real -> string)
      requires ZodiacSigns.IndexInBounds(moon.apparentLongitude)
      modifies this
      ensures Calculated(previousFraction, formatDate)
      ensures IconsAgree()
    {
      var phase := MoonPhases.FromDegree(moon.phaseAngle);
      var sign := ZodiacSigns.FromDegree(moon.apparentLongitude);
      AssignTexts(phase, sign, previousFraction,
                  formatDate(moon.ascendingNode), formatDate(moon.descendingNode));
      AssignIcons(phase);
    }

    /** The first half of `calculateData`: the eight texts, given the two
        node-passage dates already formatted. */
    method AssignTexts(phase: MoonPhase, sign: ZodiacSign, previousFraction: Option<real>,
                       ascendingText: string, descendingText: string)
      modifies this`moonPhase, this`element, this`moonIlluminatedFraction, this`moonTrend
      modifies this`moonDirection, this`ascendingNodeDate, this`descendingNodeDate, this`moonSign
      ensures moonPhase == MoonPhases.RawValue(phase)
      ensures element == GetGardeningDay(phase, sign)
      ensures moonIlluminatedFraction == moon.illuminatedFraction
      ensures moonTrend == MoonTrend(moon.illuminatedFraction, previousFraction)
      ensures moonDirection == MoonDirection(jd, moon.ascendingNode)
      ensures ascendingNodeDate == ascendingText
      ensures descendingNodeDate == descendingText
      ensures moonSign == ZodiacSigns.RawValue(sign)
    {
      moonPhase := MoonPhases.RawValue(phase);
      element := GetGardeningDay(phase, sign);
      moonIlluminatedFraction := moon.illuminatedFraction;
      moonTrend := MoonTrend(moon.illuminatedFraction, previousFraction);
      moonDirection := MoonDirection(jd, moon.ascendingNode);
      ascendingNodeDate := ascendingText;
      descendingNodeDate := descendingText;
      moonSign := ZodiacSigns.RawValue(sign);
    }

    /** The second half of `calculateData`: each icon reads the text just
        assigned, and no text changes. */
    method AssignIcons(phase: MoonPhase)
      modifies this`moonPhaseIcon, this`moonTrendIcon, this`moonDirectionIcon, this`elementIcon
      ensures moonPhaseIcon == MoonPhaseIcon(phase)
      ensures moonTrendIcon == TrendIcon(moonTrend)
      ensures moonDirectionIcon == DirectionIcon(moonDirection)
      ensures elementIcon == ElementIcon(element)
    {
      moonPhaseIcon := MoonPhaseIcon(phase);
      moonTrendIcon := TrendIcon(moonTrend);
      moonDirectionIcon := DirectionIcon(moonDirection);
      elementIcon := ElementIcon(element);
    }
  }
}
