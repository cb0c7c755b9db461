/** The day-detail sheet's view model (`DayDetailViewModel`): its initialiser
    classifies one date's elongation and lunar longitude and fills six display
    fields in sequence. */
module DayDetail {
  import opened MoonPhases
  import opened ZodiacSigns
  import GardeningLogic
  import GardeningGuide
  import Astronomy

  /** The Moon's elongation from the Sun: the difference of their ecliptic
      longitudes, moved up by a full turn when negative. */
  function Elongation(moonLongitude: real, sunLongitude: real): (e: real)
    ensures e == moonLongitude - sunLongitude || e == moonLongitude - sunLongitude + 360.0
    ensures e == moonLongitude - sunLongitude <==> moonLongitude - sunLongitude >= 0.0
    ensures 0.0 <= moonLongitude < 360.0 && 0.0 <= sunLongitude < 360.0 ==> 0.0 <= e < 360.0
  {
    var raw := moonLongitude - sunLongitude;
    if raw < 0.0 then raw + 360.0 else raw
  }

  /** The correction is a whole turn, so it never changes the phase. */
  lemma {:induction false} ElongationPhase(moonLongitude: real, sunLongitude: real)
    ensures MoonPhases.FromDegree(Elongation(moonLongitude, sunLongitude))
            == MoonPhases.FromDegree(moonLongitude - sunLongitude)
  {
    var raw := moonLongitude - sunLongitude;
    if raw < 0.0 {
      FromDegreePeriodic(raw, 1);
    }
  }

  class DayDetailViewModel {
    var moonPhase: string
    var moonPhaseIcon: string
    var element: string
    var elementIcon: string
    var moonSign: string
    var plantsToPlant: seq<string>

    /** `init(date:)`, given what the ephemeris library reports for the date:
        the ecliptic longitudes of Moon and Sun and the Moon's apparent
        longitude. The phase icon is the dashboard's map; the gardening day and
        the plants come from the same phase and sign that are shown. */
    constructor (moonLongitude: real, sunLongitude: real, apparentLongitude: real)
      requires ZodiacSigns.IndexInBounds(apparentLongitude)
      ensures var phase := MoonPhases.FromDegree(Elongation(moonLongitude, sunLongitude));
              var sign := ZodiacSigns.FromDegree(apparentLongitude);
              && moonPhase == MoonPhases.RawValue(phase)
              && moonPhaseIcon == Astronomy.MoonPhaseIcon(phase)
              && moonSign == ZodiacSigns.RawValue(sign)
              && element == GardeningLogic.GetGardeningDay(phase, sign)
              && plantsToPlant == GardeningGuide.GetPlants(element)
      ensures moonPhaseIcon != Astronomy.WarningIcon
      ensures elementIcon == (if element == GardeningLogic.Fruit then "fork.knife"
                              else Astronomy.ElementIcon(element))
      ensures plantsToPlant != [] <==> element != GardeningLogic.Other
    {
      moonPhase, moonPhaseIcon, element, elementIcon, moonSign := "", "", "", "", "";
      plantsToPlant := [];
      new;

      var rawElongation := moonLongitude - sunLongitude;
      var elongation := if rawElongation < 0.0 then rawElongation + 360.0 else rawElongation;

      var phase := MoonPhases.FromDegree(elongation);
      var sign := ZodiacSigns.FromDegree(apparentLongitude);
      assert elongation == Elongation(moonLongitude, sunLongitude);
      assert Astronomy.MoonPhaseIcon(phase) != Astronomy.WarningIcon;
      GardeningGuide.PlantsIffWorkingDay(phase, sign);
      GardeningLogic.DayKindsDistinct();

      moonPhase := MoonPhases.RawValue(phase);

      var icon: string;
      match phase {
        case NewMoon => icon := "moonphase.new.moon";
        case WaxingCrescent => icon := "moonphase.waxing.crescent";
        case FirstQuarter => icon := "moonphase.first.quarter";
        case WaxingGibbous => icon := "moonphase.waxing.gibbous";
        case FullMoon => icon := "moonphase.full.moon";
        case WaningGibbous => icon := "moonphase.waning.gibbous";
        case LastQuarter => icon := "moonphase.last.quarter";
        case WaningCrescent => icon := "moonphase.waning.crescent";
        case Error => icon := "exclamationmark.triangle";
      }
      assert icon == Astronomy.MoonPhaseIcon(phase);
      moonPhaseIcon := icon;

      moonSign := ZodiacSigns.RawValue(sign);

      element := GardeningLogic.GetGardeningDay(phase, sign);
      plantsToPlant := GardeningGuide.GetPlants(element);

      if element == GardeningLogic.Root {
        elementIcon := "carrot";
      } else if element == GardeningLogic.Leaf {
        elementIcon := "leaf";
      } else if element == GardeningLogic.Fruit {
        elementIcon := "fork.knife";
      } else if element == GardeningLogic.Flower {
        elementIcon := "camera.macro";
      } else {
        elementIcon := "leaf";
      }
    }
  }
}
