/** The plant catalogue (`GardeningGuide.getPlants(for:)`): a fixed, ordered
    list of plants for each of the four working day kinds, none otherwise. */
module GardeningGuide {
  import opened MoonPhases
  import opened ZodiacSigns
  import opened GardeningLogic

  const RootPlants: seq<string> :=
    ["Carotte", "Radis", "Navet", "Betterave", "Ail", "Oignon", "Pomme de terre"]
  const LeafPlants: seq<string> :=
    ["Salade", "Épinard", "Chou", "Persil", "Basilic", "Poireau", "Blette"]
  const FlowerPlants: seq<string> :=
    ["Brocoli", "Chou-fleur", "Artichaut", "Fleurs ornementales", "Lavande"]
  const FruitPlants: seq<string> :=
    ["Tomate", "Concombre", "Courgette", "Aubergine", "Fraise", "Framboise", "Haricot"]

  /** The day kinds that have something to plant. */
  const PlantingDays: set<string> := {Root, Leaf, Flower, Fruit}

  /** `getPlants(for:)`: the list for an exactly spelled day kind; any other
      string, "Autre jour" included, gets the empty list. */
  function GetPlants(element: string): (plants: seq<string>)
    ensures plants != [] <==> element in PlantingDays
    ensures element == Root ==> |plants| == 7 && plants[0] == "Carotte" && plants[6] == "Pomme de terre"
    ensures element == Leaf ==> |plants| == 7 && plants[0] == "Salade" && plants[6] == "Blette"
    ensures element == Flower ==> |plants| == 5 && plants[0] == "Brocoli" && plants[4] == "Lavande"
    ensures element == Fruit ==> |plants| == 7 && plants[0] == "Tomate" && plants[6] == "Haricot"
  {
    DayKindsDistinct();
    if element == Root then RootPlants
    else if element == Leaf then LeafPlants
    else if element == Flower then FlowerPlants
    else if element == Fruit then FruitPlants
    else []
  }

  /** Only the exact spelling matches: another capitalisation gets nothing. */
  lemma SpellingMatters()
    ensures GetPlants(Other) == []
    ensures GetPlants("jour racine") == [] && GetPlants("Jour Racine") == []
    ensures GetPlants("") == []
  {
    DayKindsDistinct();
    assert "jour racine"[0] != Root[0] && "Jour Racine"[5] != Root[5];
    assert "jour racine"[0] != Leaf[0] && "Jour Racine"[5] != Leaf[5];
    assert "jour racine"[0] != Fruit[0] && "Jour Racine"[5] != Fruit[5];
    assert "jour racine"[0] != Flower[0] && "Jour Racine"[5] != Flower[5];
  }

  /** No list names a plant twice. */
  predicate NoDuplicates(s: seq<string>) {
    forall i, j :: 0 <= i < j < |s| ==> s[i] != s[j]
  }

  /** The list handed out for any day kind names each plant once. */
  lemma ListsHaveNoDuplicates(element: string)
    ensures NoDuplicates(GetPlants(element))
  {
    assert NoDuplicates(RootPlants) && NoDuplicates(LeafPlants);
    assert NoDuplicates(FlowerPlants) && NoDuplicates(FruitPlants);
  }

  /** Two lists share no plant. */
  predicate ShareNothing(a: seq<string>, b: seq<string>) {
    forall i, j :: 0 <= i < |a| && 0 <= j < |b| ==> a[i] != b[j]
  }

  /** The lists handed out for two different texts share no plant. */
  lemma ListsShareNothing(element1: string, element2: string)
    requires element1 != element2
    ensures ShareNothing(GetPlants(element1), GetPlants(element2))
  {
    assert ShareNothing(RootPlants, LeafPlants) && ShareNothing(RootPlants, FlowerPlants);
    assert ShareNothing(RootPlants, FruitPlants) && ShareNothing(LeafPlants, FlowerPlants);
    assert ShareNothing(LeafPlants, FruitPlants) && ShareNothing(FlowerPlants, FruitPlants);
    assert ShareNothing(LeafPlants, RootPlants) && ShareNothing(FlowerPlants, RootPlants);
    assert ShareNothing(FruitPlants, RootPlants) && ShareNothing(FlowerPlants, LeafPlants);
    assert ShareNothing(FruitPlants, LeafPlants) && ShareNothing(FruitPlants, FlowerPlants);
  }

  /** Composed with the gardening calendar: there is something to plant
      exactly on the days that are not "Autre jour". */
  lemma {:induction false} PlantsIffWorkingDay(phase: MoonPhase, sign: ZodiacSign)
    ensures GetPlants(GetGardeningDay(phase, sign)) != [] <==> GetGardeningDay(phase, sign) != Other
  {
    DayKindsDistinct();
  }
}
