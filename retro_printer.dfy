/** The accuracy rating printed on the receipt: how closely the served mix
    matches the target recipe, as a whole percentage.

    The rating is computed here in exact rational arithmetic (`real`). Every
    per-ingredient credit is a multiple of 1/5, so the raw score is F/5 for a
    whole number F of "fifths" in 0..35, and the rating is the rounded value
    of 20F/7; NoRoundingTie shows that this value always lies at least 1/14
    away from a rounding boundary. */
module RetroPrinter {
  import opened Types

  function Abs(x: int): nat
  {
    if x < 0 then -x else x
  }

  function MaxReal(a: real, b: real): real
  {
    if a >= b then a else b
  }

  function RealAbs(x: real): real
  {
    if x < 0.0 then -x else x
  }

  /** `Math.round`: the nearest integer, a tie going up. */
  function Round(x: real): (r: int)
    ensures r as real - 0.5 <= x < r as real + 0.5
  {
    (x + 0.5).Floor
  }

  /** One ingredient's credit: max(0, 1 - |target - actual| / 5). */
  function Credit(target: int, actual: int): (c: real)
    ensures 0.0 <= c <= 1.0
    ensures c == 1.0 <==> target == actual
    ensures c == 0.0 <==> Abs(target - actual) >= 5
  {
    MaxReal(0.0, 1.0 - Abs(target - actual) as real / 5.0)
  }

  /** The same credit counted in fifths of a point. */
  function CreditFifths(target: int, actual: int): (n: nat)
    ensures n <= 5
    ensures Credit(target, actual) == n as real / 5.0
  {
    if Abs(target - actual) >= 5 then 0 else 5 - Abs(target - actual)
  }

  /** The credits of the ingredients `keys`, summed in order. */
  function IngredientScore(target: Amounts, actual: Amounts, keys: seq<Ingredient>): (s: real)
    ensures 0.0 <= s <= |keys| as real
  {
    if keys == [] then 0.0
    else
      var k := keys[|keys| - 1];
      IngredientScore(target, actual, keys[..|keys| - 1]) + Credit(target.Get(k), actual.Get(k))
  }

  /** The same sum counted in fifths. */
  function IngredientFifths(target: Amounts, actual: Amounts, keys: seq<Ingredient>): (n: nat)
    ensures n <= 5 * |keys|
  {
    if keys == [] then 0
    else
      var k := keys[|keys| - 1];
      IngredientFifths(target, actual, keys[..|keys| - 1]) + CreditFifths(target.Get(k), actual.Get(k))
  }

  /** One point for a modifier the mix gets right. */
  function FlagPoint(target: bool, actual: bool): real
  {
    if target == actual then 1.0 else 0.0
  }

  /** The raw score: the five ingredient credits plus one point per matching modifier. */
  function Score(targetRecipe: DrinkRecipe, finalMix: MixState): (s: real)
    ensures 0.0 <= s <= 7.0
  {
    IngredientScore(targetRecipe.ingredients, finalMix.ingredients, AllIngredients)
      + FlagPoint(targetRecipe.iced, finalMix.iced)
      + FlagPoint(targetRecipe.aged, finalMix.aged)
  }

  /** The raw score in fifths: F in 0..35. */
  function Fifths(targetRecipe: DrinkRecipe, finalMix: MixState): (n: nat)
    ensures n <= 35
  {
    IngredientFifths(targetRecipe.ingredients, finalMix.ingredients, AllIngredients)
      + (if targetRecipe.iced == finalMix.iced then 5 else 0)
      + (if targetRecipe.aged == finalMix.aged then 5 else 0)
  }

  /** The unrounded percentage: the score over five ingredients plus two modifiers. */
  function ExactPercent(targetRecipe: DrinkRecipe, finalMix: MixState): real
  {
    Score(targetRecipe, finalMix) / (|AllIngredients| + 2) as real * 100.0
  }

  /** The accuracy rating, a whole percentage. */
  function Accuracy(targetRecipe: DrinkRecipe, finalMix: MixState): (pct: int)
    ensures 0 <= pct <= 100
  {
    Round(ExactPercent(targetRecipe, finalMix))
  }

  /** The rating as the printer computes it: a pass over the recipe's ingredient
      keys adding up the credits and counting the parameters, one point per
      matching modifier, then the score over (parameters + 2), times 100, rounded. */
  method CalculateAccuracy(targetRecipe: DrinkRecipe, finalMix: MixState) returns (pct: int)
    ensures pct == Accuracy(targetRecipe, finalMix)
    ensures 0 <= pct <= 100
  {
    var keys := AllIngredients;
    var score: real := 0.0;
    var params := 0;
    for n := 0 to |keys|
      invariant score == IngredientScore(targetRecipe.ingredients, finalMix.ingredients, keys[..n])
      invariant params == n
    {
      var target := targetRecipe.ingredients.Get(keys[n]);
      var actual := finalMix.ingredients.Get(keys[n]);
      score := score + MaxReal(0.0, 1.0 - Abs(target - actual) as real / 5.0);
      params := params + 1;
      assert keys[..n + 1][..n] == keys[..n];
    }
    assert keys[..|keys|] == keys;
    if targetRecipe.iced == finalMix.iced { score := score + 1.0; }
    if targetRecipe.aged == finalMix.aged { score := score + 1.0; }
    pct := Round(score / (params + 2) as real * 100.0);
  }

  /** Summing credits is summing fifths and dividing by five. */
  lemma {:induction false} IngredientScoreInFifths(target: Amounts, actual: Amounts, keys: seq<Ingredient>)
    ensures IngredientScore(target, actual, keys) == IngredientFifths(target, actual, keys) as real / 5.0
  {
    if keys != [] {
      IngredientScoreInFifths(target, actual, keys[..|keys| - 1]);
    }
  }

  /** The unrounded percentage is 20F/7. */
  lemma ExactPercentInFifths(targetRecipe: DrinkRecipe, finalMix: MixState)
    ensures ExactPercent(targetRecipe, finalMix) == 20.0 * Fifths(targetRecipe, finalMix) as real / 7.0
  {
    IngredientScoreInFifths(targetRecipe.ingredients, finalMix.ingredients, AllIngredients);
  }

  /** Two integers within half a unit of the same value, ties going up, coincide. */
  lemma RoundIsUnique(x: real, r: int)
    requires r as real - 0.5 <= x < r as real + 0.5
    ensures Round(x) == r
  {
  }

  /** In whole numbers the rating is (40F + 7) / 14. */
  lemma AccuracyInFifths(targetRecipe: DrinkRecipe, finalMix: MixState)
    ensures Accuracy(targetRecipe, finalMix) == (40 * Fifths(targetRecipe, finalMix) + 7) / 14
  {
    var f := Fifths(targetRecipe, finalMix);
    var r := (40 * f + 7) / 14;
    ExactPercentInFifths(targetRecipe, finalMix);
    assert 14 * r <= 40 * f + 7 < 14 * r + 14;
    assert r as real - 0.5 <= 20.0 * f as real / 7.0 < r as real + 0.5;
    RoundIsUnique(ExactPercent(targetRecipe, finalMix), r);
  }

  /** The unrounded percentage is never within 1/14 of a half-integer, so no
      rounding tie and no small representation error can change the rating. */
  lemma NoRoundingTie(targetRecipe: DrinkRecipe, finalMix: MixState, k: int)
    ensures RealAbs(ExactPercent(targetRecipe, finalMix) - (k as real + 0.5)) >= 1.0 / 14.0
  {
    var f := Fifths(targetRecipe, finalMix);
    ExactPercentInFifths(targetRecipe, finalMix);
    var d := 40 * f - 14 * k - 7;
    assert d != 0;
    assert ExactPercent(targetRecipe, finalMix) - (k as real + 0.5) == d as real / 14.0;
  }

  /** Every credit in `keys` is full exactly when every amount in `keys` matches,
      and every credit is nil exactly when every amount is off by 5 or more. */
  lemma {:induction false} IngredientFifthsExtremes(target: Amounts, actual: Amounts, keys: seq<Ingredient>)
    ensures (IngredientFifths(target, actual, keys) == 5 * |keys|)
              <==> forall j :: 0 <= j < |keys| ==> target.Get(keys[j]) == actual.Get(keys[j])
    ensures (IngredientFifths(target, actual, keys) == 0)
              <==> forall j :: 0 <= j < |keys| ==> Abs(target.Get(keys[j]) - actual.Get(keys[j])) >= 5
  {
    if keys != [] {
      var init := keys[..|keys| - 1];
      IngredientFifthsExtremes(target, actual, init);
      assert forall j :: 0 <= j < |init| ==> init[j] == keys[j];
    }
  }

  /** The position of an ingredient in the five-key list. */
  function IndexOf(i: Ingredient): (j: nat)
    ensures j < |AllIngredients| && AllIngredients[j] == i
  {
    match i
    case Adelhyde => 0
    case BronsonExt => 1
    case PwdDelta => 2
    case Flanergide => 3
    case Karmotrine => 4
  }

  /** "Every key of the five-key list" and "every ingredient" say the same thing. */
  lemma AllKeysAreAllIngredients(target: Amounts, actual: Amounts)
    ensures (forall j :: 0 <= j < |AllIngredients| ==> target.Get(AllIngredients[j]) == actual.Get(AllIngredients[j]))
              ==> (forall i :: target.Get(i) == actual.Get(i))
    ensures (forall j :: 0 <= j < |AllIngredients| ==> Abs(target.Get(AllIngredients[j]) - actual.Get(AllIngredients[j])) >= 5)
              ==> (forall i :: Abs(target.Get(i) - actual.Get(i)) >= 5)
  {
    if forall j :: 0 <= j < |AllIngredients| ==> target.Get(AllIngredients[j]) == actual.Get(AllIngredients[j]) {
      forall i ensures target.Get(i) == actual.Get(i) {
        assert AllIngredients[IndexOf(i)] == i;
      }
    }
    if forall j :: 0 <= j < |AllIngredients| ==> Abs(target.Get(AllIngredients[j]) - actual.Get(AllIngredients[j])) >= 5 {
      forall i ensures Abs(target.Get(i) - actual.Get(i)) >= 5 {
        assert AllIngredients[IndexOf(i)] == i;
      }
    }
  }

  /** The ingredient sum over the five keys, written out. */
  lemma FifthsOfFive(target: Amounts, actual: Amounts)
    ensures IngredientFifths(target, actual, AllIngredients)
              == CreditFifths(target.adelhyde, actual.adelhyde) + CreditFifths(target.bronsonExt, actual.bronsonExt)
                 + CreditFifths(target.pwdDelta, actual.pwdDelta) + CreditFifths(target.flanergide, actual.flanergide)
                 + CreditFifths(target.karmotrine, actual.karmotrine)
  {
    var keys := AllIngredients;
    assert keys[..1] == [Adelhyde] && keys[..1][..0] == [];
    assert keys[..2] == [Adelhyde, BronsonExt] && keys[..2][..1] == keys[..1];
    assert keys[..3] == [Adelhyde, BronsonExt, PwdDelta] && keys[..3][..2] == keys[..2];
    assert keys[..4] == [Adelhyde, BronsonExt, PwdDelta, Flanergide] && keys[..4][..3] == keys[..3];
    assert keys[..|keys| - 1] == keys[..4];
    assert IngredientFifths(target, actual, keys[..1]) == CreditFifths(target.adelhyde, actual.adelhyde);
    assert IngredientFifths(target, actual, keys[..2])
      == IngredientFifths(target, actual, keys[..1]) + CreditFifths(target.bronsonExt, actual.bronsonExt);
    assert IngredientFifths(target, actual, keys[..3])
      == IngredientFifths(target, actual, keys[..2]) + CreditFifths(target.pwdDelta, actual.pwdDelta);
    assert IngredientFifths(target, actual, keys[..4])
      == IngredientFifths(target, actual, keys[..3]) + CreditFifths(target.flanergide, actual.flanergide);
  }

  /** The rating is 100 exactly when the mix has every amount and both modifiers of the target. */
  lemma PerfectIff100(targetRecipe: DrinkRecipe, finalMix: MixState)
    ensures (Accuracy(targetRecipe, finalMix) == 100)
              <==> (forall i :: targetRecipe.ingredients.Get(i) == finalMix.ingredients.Get(i))
                   && targetRecipe.iced == finalMix.iced && targetRecipe.aged == finalMix.aged
  {
    AccuracyInFifths(targetRecipe, finalMix);
    IngredientFifthsExtremes(targetRecipe.ingredients, finalMix.ingredients, AllIngredients);
    AllKeysAreAllIngredients(targetRecipe.ingredients, finalMix.ingredients);
  }

  /** The target served back as a mix scores 100. */
  lemma TargetAsMixScores100(targetRecipe: DrinkRecipe)
    ensures Accuracy(targetRecipe, AsMix(targetRecipe)) == 100
  {
    PerfectIff100(targetRecipe, AsMix(targetRecipe));
  }

  /** Said of whole values: the rating is 100 exactly when the mix is the target's own mix. */
  lemma PerfectIffSameMix(targetRecipe: DrinkRecipe, finalMix: MixState)
    ensures Accuracy(targetRecipe, finalMix) == 100 <==> AsMix(targetRecipe) == finalMix
  {
    PerfectIff100(targetRecipe, finalMix);
    var t, m := targetRecipe.ingredients, finalMix.ingredients;
    if Accuracy(targetRecipe, finalMix) == 100 {
      assert t.Get(Adelhyde) == m.Get(Adelhyde) && t.Get(BronsonExt) == m.Get(BronsonExt);
      assert t.Get(PwdDelta) == m.Get(PwdDelta) && t.Get(Flanergide) == m.Get(Flanergide);
      assert t.Get(Karmotrine) == m.Get(Karmotrine);
    }
  }

  /** The rating is 0 exactly when every amount is off by 5 or more and both modifiers are wrong. */
  lemma ZeroIff0(targetRecipe: DrinkRecipe, finalMix: MixState)
    ensures (Accuracy(targetRecipe, finalMix) == 0)
              <==> (forall i :: Abs(targetRecipe.ingredients.Get(i) - finalMix.ingredients.Get(i)) >= 5)
                   && targetRecipe.iced != finalMix.iced && targetRecipe.aged != finalMix.aged
  {
    AccuracyInFifths(targetRecipe, finalMix);
    IngredientFifthsExtremes(targetRecipe.ingredients, finalMix.ingredients, AllIngredients);
    AllKeysAreAllIngredients(targetRecipe.ingredients, finalMix.ingredients);
  }

  /** Getting one modifier right is worth exactly one point of the raw score. */
  lemma FlagWorthOnePoint(targetRecipe: DrinkRecipe, finalMix: MixState)
    ensures Score(targetRecipe, finalMix.(iced := targetRecipe.iced))
              == Score(targetRecipe, finalMix.(iced := !targetRecipe.iced)) + 1.0
    ensures Score(targetRecipe, finalMix.(aged := targetRecipe.aged))
              == Score(targetRecipe, finalMix.(aged := !targetRecipe.aged)) + 1.0
  {
  }

  /** A recipe {3, 2, 1, 0, 4, iced, not aged} and a mix that differs only by
      Adelhyde 0: credit 0.4 + 6 = 6.4 points, round(6.4 / 7 * 100) = 91. */
  lemma WorkedExample()
    ensures var target := DrinkRecipe("", "", "", "", Amounts(3, 2, 1, 0, 4), true, false);
            Accuracy(target, MixState(Amounts(0, 2, 1, 0, 4), true, false)) == 91
            && Accuracy(target, MixState(Amounts(3, 2, 1, 0, 4), true, false)) == 100
  {
    var target := DrinkRecipe("", "", "", "", Amounts(3, 2, 1, 0, 4), true, false);
    var mix := MixState(Amounts(0, 2, 1, 0, 4), true, false);
    AccuracyInFifths(target, mix);
    FifthsOfFive(target.ingredients, mix.ingredients);
    TargetAsMixScores100(target);
  }
}
