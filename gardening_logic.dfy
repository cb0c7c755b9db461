/** The gardening calendar (`GardeningLogic.getGardeningDay`): a fixed table
    of (phase, sign) pairs sorted into root, leaf, fruit and flower days;
    every other pair is "Autre jour". */
module GardeningLogic {
  import opened MoonPhases
  import opened ZodiacSigns

  const Root := "Jour racine"
  const Leaf := "Jour feuille"
  const Fruit := "Jour fruit"
  const Flower := "Jour fleur"
  const Other := "Autre jour"

  /** The five day kinds the table can produce. */
  const DayKinds: set<string> := {Root, Leaf, Fruit, Flower, Other}

  /** `getGardeningDay(phase:sign:)`, case lists in the table's order. */
  function GetGardeningDay(phase: MoonPhase, sign: ZodiacSign): (day: string)
    ensures day in DayKinds
    ensures phase == Error ==> day == Other
  {
    match (phase, sign)
    case (NewMoon, Aries) | (LastQuarter, Cancer) | (LastQuarter, Scorpio)
       | (WaningGibbous, Scorpio) | (WaxingCrescent, Taurus) | (WaxingCrescent, Virgo)
       | (WaxingGibbous, Capricorn) | (WaxingGibbous, Pisces) =>
      Root
    case (NewMoon, Taurus) | (FirstQuarter, Cancer) | (FirstQuarter, Scorpio)
       | (FullMoon, Aries) | (FullMoon, Leo) | (FullMoon, Sagittarius)
       | (FullMoon, Aquarius) | (WaningCrescent, Pisces) =>
      Leaf
    case (FirstQuarter, Aries) | (FirstQuarter, Leo) | (FirstQuarter, Sagittarius)
       | (WaxingGibbous, Gemini) | (WaxingGibbous, Libra) | (WaningCrescent, Taurus)
       | (WaningCrescent, Virgo) | (WaningCrescent, Capricorn) =>
      Fruit
    case (NewMoon, Gemini) | (NewMoon, Virgo) | (NewMoon, Sagittarius) | (NewMoon, Pisces)
       | (FirstQuarter, Taurus) | (FirstQuarter, Virgo) | (FirstQuarter, Capricorn)
       | (FullMoon, Gemini) | (FullMoon, Libra) | (WaningCrescent, Aries)
       | (WaningCrescent, Leo) | (WaningCrescent, Sagittarius) | (WaningCrescent, Aquarius) =>
      Flower
    case _ =>
      Other
  }

  /** The pairs of each day kind, as sets. */
  const RootPairs: set<(MoonPhase, ZodiacSign)> :=
    {(NewMoon, Aries), (LastQuarter, Cancer), (LastQuarter, Scorpio), (WaningGibbous, Scorpio),
     (WaxingCrescent, Taurus), (WaxingCrescent, Virgo), (WaxingGibbous, Capricorn),
     (WaxingGibbous, Pisces)}
  const LeafPairs: set<(MoonPhase, ZodiacSign)> :=
    {(NewMoon, Taurus), (FirstQuarter, Cancer), (FirstQuarter, Scorpio), (FullMoon, Aries),
     (FullMoon, Leo), (FullMoon, Sagittarius), (FullMoon, Aquarius), (WaningCrescent, Pisces)}
  const FruitPairs: set<(MoonPhase, ZodiacSign)> :=
    {(FirstQuarter, Aries), (FirstQuarter, Leo), (FirstQuarter, Sagittarius),
     (WaxingGibbous, Gemini), (WaxingGibbous, Libra), (WaningCrescent, Taurus),
     (WaningCrescent, Virgo), (WaningCrescent, Capricorn)}
  const FlowerPairs: set<(MoonPhase, ZodiacSign)> :=
    {(NewMoon, Gemini), (NewMoon, Virgo), (NewMoon, Sagittarius), (NewMoon, Pisces),
     (FirstQuarter, Taurus), (FirstQuarter, Virgo), (FirstQuarter, Capricorn),
     (FullMoon, Gemini), (FullMoon, Libra), (WaningCrescent, Aries), (WaningCrescent, Leo),
     (WaningCrescent, Sagittarius), (WaningCrescent, Aquarius)}

  /** All pairs the table lists. */
  function ListedPairs(): set<(MoonPhase, ZodiacSign)> {
    RootPairs + LeafPairs + FruitPairs + FlowerPairs
  }

  /** The five day kinds are five different strings. */
  lemma DayKindsDistinct()
    ensures Root != Leaf && Root != Fruit && Root != Flower && Root != Other
    ensures Leaf != Fruit && Leaf != Flower && Leaf != Other
    ensures Fruit != Flower && Fruit != Other && Flower != Other
  {
    assert Root[5] == 'r' && Leaf[5] == 'f' && Fruit[5] == 'f' && Flower[5] == 'f' && Other[0] == 'A';
    assert Leaf[6] == 'e' && Fruit[6] == 'r' && Flower[6] == 'l';
  }

  lemma RootDisjoint()
    ensures RootPairs !! LeafPairs && RootPairs !! FruitPairs && RootPairs !! FlowerPairs
  {
  }

  lemma LeafDisjoint()
    ensures LeafPairs !! FruitPairs && LeafPairs !! FlowerPairs
  {
  }

  lemma FruitDisjoint()
    ensures FruitPairs !! FlowerPairs
  {
  }

  lemma RootLeafSizes()
    ensures |RootPairs| == 8 && |LeafPairs| == 8
  {
  }

  lemma FruitFlowerSizes()
    ensures |FruitPairs| == 8 && |FlowerPairs| == 13
  {
    FlowerSize();
  }

  /** The flower list on its own: 13 pairs. */
  lemma FlowerSize()
    ensures |FlowerPairs| == 13
  {
  }

  lemma ListSizes()
    ensures |RootPairs| == 8 && |LeafPairs| == 8 && |FruitPairs| == 8 && |FlowerPairs| == 13
  {
    RootLeafSizes();
    FruitFlowerSizes();
  }

  /** The four lists are pairwise disjoint, so the order of the cases does not
      matter; they hold 8, 8, 8 and 13 pairs, 37 in all. */
  lemma ListedCount()
    ensures RootPairs !! LeafPairs && RootPairs !! FruitPairs && RootPairs !! FlowerPairs
    ensures LeafPairs !! FruitPairs && LeafPairs !! FlowerPairs && FruitPairs !! FlowerPairs
    ensures |RootPairs| == 8 && |LeafPairs| == 8 && |FruitPairs| == 8 && |FlowerPairs| == 13
    ensures |ListedPairs()| == 37
  {
    RootDisjoint();
    LeafDisjoint();
    FruitDisjoint();
    ListSizes();
    assert |RootPairs + LeafPairs| == 16;
    assert |RootPairs + LeafPairs + FruitPairs| == 24;
  }

  lemma RootList(phase: MoonPhase, sign: ZodiacSign)
    ensures GetGardeningDay(phase, sign) == Root <==> (phase, sign) in RootPairs
  {
    DayKindsDistinct();
  }

  lemma LeafList(phase: MoonPhase, sign: ZodiacSign)
    ensures GetGardeningDay(phase, sign) == Leaf <==> (phase, sign) in LeafPairs
  {
    DayKindsDistinct();
  }

  lemma FruitList(phase: MoonPhase, sign: ZodiacSign)
    ensures GetGardeningDay(phase, sign) == Fruit <==> (phase, sign) in FruitPairs
  {
    DayKindsDistinct();
  }

  lemma FlowerList(phase: MoonPhase, sign: ZodiacSign)
    ensures GetGardeningDay(phase, sign) == Flower <==> (phase, sign) in FlowerPairs
  {
    DayKindsDistinct();
  }

  /** Each day kind is produced by exactly the pairs of its list, and "Autre
      jour" by every pair no list holds. */
  lemma {:induction false} DayKindByList(phase: MoonPhase, sign: ZodiacSign)
    ensures GetGardeningDay(phase, sign) == Root <==> (phase, sign) in RootPairs
    ensures GetGardeningDay(phase, sign) == Leaf <==> (phase, sign) in LeafPairs
    ensures GetGardeningDay(phase, sign) == Fruit <==> (phase, sign) in FruitPairs
    ensures GetGardeningDay(phase, sign) == Flower <==> (phase, sign) in FlowerPairs
    ensures GetGardeningDay(phase, sign) == Other <==> (phase, sign) !in ListedPairs()
  {
    RootList(phase, sign);
    LeafList(phase, sign);
    FruitList(phase, sign);
    FlowerList(phase, sign);
  }

  /** Spot checks: listed pairs and unlisted ones. */
  lemma Examples()
    ensures GetGardeningDay(NewMoon, Aries) == Root
    ensures GetGardeningDay(WaxingGibbous, Pisces) == Root
    ensures GetGardeningDay(FullMoon, Leo) == Leaf
    ensures GetGardeningDay(NewMoon, Leo) == Other
    ensures GetGardeningDay(WaxingCrescent, Aries) == Other
  {
  }
}
