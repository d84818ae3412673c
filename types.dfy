/** The data model shared by the bartender screens: the five ingredients,
    the recipe a customer is served, the mix a player assembles, and the
    screens (stages) of the game. */
module Types {

  datatype Option<+T> = None | Some(value: T)

  /** The closed set of ingredient names; every recipe and every mix is keyed by exactly these. */
  datatype Ingredient = Adelhyde | BronsonExt | PwdDelta | Flanergide | Karmotrine

  /** The ingredients in the order the recipe literals and the response schema list them. */
  const AllIngredients: seq<Ingredient> := [Adelhyde, BronsonExt, PwdDelta, Flanergide, Karmotrine]

  /** The name an ingredient carries as a record key and in log lines. */
  function Label(i: Ingredient): string
  {
    match i
    case Adelhyde => "Adelhyde"
    case BronsonExt => "Bronson Ext"
    case PwdDelta => "Pwd Delta"
    case Flanergide => "Flanergide"
    case Karmotrine => "Karmotrine"
  }

  /** The ingredient type is a closed set of exactly five distinct names. */
  lemma IngredientsAreFive()
    ensures |AllIngredients| == 5
    ensures forall i: Ingredient :: i in AllIngredients
    ensures forall j, k :: 0 <= j < k < |AllIngredients| ==> AllIngredients[j] != AllIngredients[k]
    ensures forall i, i' :: Label(i) == Label(i') ==> i == i'
  {
    forall i: Ingredient ensures i in AllIngredients {
      match i
      case Adelhyde =>
      case BronsonExt =>
      case PwdDelta =>
      case Flanergide =>
      case Karmotrine =>
    }
  }

  /** A record that assigns an amount to every one of the five ingredients. */
  datatype Amounts = Amounts(adelhyde: int, bronsonExt: int, pwdDelta: int, flanergide: int, karmotrine: int)
  {
    /** The amount recorded for ingredient `i`. */
    function Get(i: Ingredient): int
    {
      match i
      case Adelhyde => adelhyde
      case BronsonExt => bronsonExt
      case PwdDelta => pwdDelta
      case Flanergide => flanergide
      case Karmotrine => karmotrine
    }

    /** The record with the entry for `i` replaced by `v` (a spread update `{ ...a, [i]: v }`). */
    function Set(i: Ingredient, v: int): (r: Amounts)
      ensures r.Get(i) == v
      ensures forall j :: j != i ==> r.Get(j) == Get(j)
    {
      match i
      case Adelhyde => this.(adelhyde := v)
      case BronsonExt => this.(bronsonExt := v)
      case PwdDelta => this.(pwdDelta := v)
      case Flanergide => this.(flanergide := v)
      case Karmotrine => this.(karmotrine := v)
    }

    /** The sum of the five amounts (the source adds up the record's values). */
    function Total(): int
    {
      adelhyde + bronsonExt + pwdDelta + flanergide + karmotrine
    }

    /** Each amount in 0..10 and at most 20 units in all: the limits a recipe is asked
        to respect and that a mixing session keeps. */
    predicate WithinLimits()
    {
      && 0 <= adelhyde <= 10 && 0 <= bronsonExt <= 10 && 0 <= pwdDelta <= 10
      && 0 <= flanergide <= 10 && 0 <= karmotrine <= 10
      && Total() <= 20
    }
  }

  /** The limits, stated over the ingredient type rather than field by field. */
  lemma WithinLimitsMeans(a: Amounts)
    ensures a.WithinLimits() <==> (forall i :: 0 <= a.Get(i) <= 10) && a.Total() <= 20
  {
    if (forall i :: 0 <= a.Get(i) <= 10) {
      assert 0 <= a.Get(Adelhyde) <= 10 && 0 <= a.Get(BronsonExt) <= 10 && 0 <= a.Get(PwdDelta) <= 10;
      assert 0 <= a.Get(Flanergide) <= 10 && 0 <= a.Get(Karmotrine) <= 10;
    }
  }

  /** All five amounts zero: the amounts of a fresh or flushed mix. */
  const NoAmounts: Amounts := Amounts(0, 0, 0, 0, 0)

  /** Replacing one entry changes the total by the difference. */
  lemma TotalAfterSet(a: Amounts, i: Ingredient, v: int)
    ensures a.Set(i, v).Total() == a.Total() - a.Get(i) + v
  {
  }

  /** A drink as the menu lists it: four descriptive texts, the amounts and two modifiers. */
  datatype DrinkRecipe = DrinkRecipe(
    name: string,
    tagline: string,
    description: string,
    flavorProfile: string,
    ingredients: Amounts,
    iced: bool,
    aged: bool)

  /** What the player assembles: the recipe's amounts and modifiers without the texts. */
  datatype MixState = MixState(ingredients: Amounts, iced: bool, aged: bool)

  /** The mix a recipe asks for: its amounts and modifiers, texts dropped. */
  function AsMix(r: DrinkRecipe): MixState
  {
    MixState(r.ingredients, r.iced, r.aged)
  }

  /** The screens of the game. */
  datatype GameStage = MoodInput | Analyzing | MenuSelect | Mixing | Result

  const AllStages: seq<GameStage> := [MoodInput, Analyzing, MenuSelect, Mixing, Result]

  /** There are exactly five distinct stages. */
  lemma StagesAreFive()
    ensures |AllStages| == 5
    ensures forall s: GameStage :: s in AllStages
    ensures forall j, k :: 0 <= j < k < |AllStages| ==> AllStages[j] != AllStages[k]
  {
    forall s: GameStage ensures s in AllStages {
      match s
      case MoodInput =>
      case Analyzing =>
      case MenuSelect =>
      case Mixing =>
      case Result =>
    }
  }
}
