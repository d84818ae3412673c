/** The mixing console: the player drops units of ingredients into the shaker,
    switches the two modifiers, flushes, and presses Mix; after the shake the
    mix captured at the press is handed on to be scored.

    The mix itself is specified by pure functions over MixState (one per
    control); the class Console holds the console's state and its handlers. */
module MixingConsole {
  import opened Types

  function Min(a: int, b: int): int
  {
    if a <= b then a else b
  }

  /** A fresh or flushed mix: nothing poured, neither modifier set. */
  const EmptyMix: MixState := MixState(NoAmounts, false, false)

  /** The controls that change the mix. */
  datatype Action = Drop(ingredient: Ingredient) | IcedButton | AgedButton | FlushButton

  /** A drop is accepted only while fewer than 20 units are in the shaker. */
  predicate HasRoom(m: MixState)
  {
    m.ingredients.Total() < 20
  }

  /** The update an accepted drop applies: `t` goes up by one, but never past 10;
      nothing else changes. */
  function Pour(m: MixState, t: Ingredient): (r: MixState)
    ensures r.ingredients.Get(t) == Min(10, m.ingredients.Get(t) + 1)
    ensures forall i :: i != t ==> r.ingredients.Get(i) == m.ingredients.Get(i)
    ensures r.iced == m.iced && r.aged == m.aged
  {
    m.(ingredients := m.ingredients.Set(t, Min(10, m.ingredients.Get(t) + 1)))
  }

  /** The mix after one unit of `t` is dropped in: a full shaker is left as it
      is, otherwise the unit is poured. */
  function AddOne(m: MixState, t: Ingredient): (r: MixState)
    ensures !HasRoom(m) ==> r == m
    ensures HasRoom(m) ==> r == Pour(m, t)
  {
    if !HasRoom(m) then m else Pour(m, t)
  }

  /** The mix after one use of a control. */
  function Apply(m: MixState, a: Action): MixState
  {
    match a
    case Drop(t) => AddOne(m, t)
    case IcedButton => m.(iced := !m.iced)
    case AgedButton => m.(aged := !m.aged)
    case FlushButton => EmptyMix
  }

  /** The mix after a session's controls were used in order, starting from empty. */
  function Replay(actions: seq<Action>): MixState
  {
    if actions == [] then EmptyMix
    else Apply(Replay(actions[..|actions| - 1]), actions[|actions| - 1])
  }

  /** The load display turns red above 20 units. */
  predicate OverloadShown(m: MixState)
  {
    m.ingredients.Total() > 20
  }

  /** A drop keeps every amount in 0..10 and the total at most 20. */
  lemma AddOneKeepsLimits(m: MixState, t: Ingredient)
    requires m.ingredients.WithinLimits()
    ensures AddOne(m, t).ingredients.WithinLimits()
    ensures AddOne(m, t).ingredients.Total() <= m.ingredients.Total() + 1
  {
    if HasRoom(m) {
      TotalAfterSet(m.ingredients, t, Min(10, m.ingredients.Get(t) + 1));
    }
  }

  /** Every control keeps the mix within its limits. */
  lemma ApplyKeepsLimits(m: MixState, a: Action)
    requires m.ingredients.WithinLimits()
    ensures Apply(m, a).ingredients.WithinLimits()
  {
    if a.Drop? {
      AddOneKeepsLimits(m, a.ingredient);
    }
  }

  /** Whatever the controls were used for, from the empty mix every amount stays
      in 0..10 and the total at most 20, so the red overload display never shows. */
  lemma {:induction false} ReplayWithinLimits(actions: seq<Action>)
    ensures Replay(actions).ingredients.WithinLimits()
    ensures !OverloadShown(Replay(actions))
  {
    if actions != [] {
      ReplayWithinLimits(actions[..|actions| - 1]);
      ApplyKeepsLimits(Replay(actions[..|actions| - 1]), actions[|actions| - 1]);
    }
  }

  /** A unit dropped on an ingredient already at 10, while there is room, is
      accepted and changes nothing: the amount is clamped, not rejected. */
  lemma DropAtTenIsSilentNoOp(m: MixState, t: Ingredient)
    requires HasRoom(m) && m.ingredients.Get(t) == 10
    ensures AddOne(m, t) == m
  {
    assert Pour(m, t).ingredients == m.ingredients;
  }

  /** ASCII letters to upper case (the ingredient labels are ASCII). */
  function Upper(s: string): (r: string)
    ensures |r| == |s|
  {
    seq(|s|, k requires 0 <= k < |s| => if 'a' <= s[k] <= 'z' then (s[k] as int - 32) as char else s[k])
  }

  /** The lines the console's terminal feed shows. */
  datatype LogLine =
    | SystemReady
    | OverflowCapacityLimit
    | SeqLoad(ingredient: Ingredient)
    | ChamberEmpty
    | MolecularBonding
    | SetCryo | UnsetCryo
    | SetChrono | UnsetChrono
    | ChamberClear

  /** The text of a log line as the feed displays it. */
  function Text(l: LogLine): string
  {
    match l
    case SystemReady => "BTC_IDLE_SYSTEM_READY"
    case OverflowCapacityLimit => "ERR_OVERFLOW_CAPACITY_LIMIT"
    case SeqLoad(t) => "SEQ_LOAD: " + Upper(Label(t))
    case ChamberEmpty => "ERR_CHAMBER_EMPTY"
    case MolecularBonding => "SYNTH_PROC: MOLECULAR_BONDING..."
    case SetCryo => "SET_ENV: CRYO"
    case UnsetCryo => "UNSET_ENV: CRYO"
    case SetChrono => "SET_ENV: CHRONO"
    case UnsetChrono => "UNSET_ENV: CHRONO"
    case ChamberClear => "SYS_FLUSH: CHAMBER_CLEAR"
  }

  /** What a press of the Mix button did. */
  datatype MixPress = Disabled | RefusedEmpty | Shaking

  class Console {
    var mix: MixState
    var isShaking: bool
    var log: LogLine
    var showHint: bool
    /** The mix the pending shake timer will hand on; None while no timer is pending. */
    var pendingFinish: Option<MixState>

    ghost predicate Valid()
      reads this
    {
      && mix.ingredients.WithinLimits()
      && (isShaking <==> pendingFinish.Some?)
      && (pendingFinish.Some? ==>
            pendingFinish.value.ingredients.WithinLimits() && pendingFinish.value.ingredients.Total() > 0)
    }

    /** A console opened for a new order. */
    constructor ()
      ensures Valid()
      ensures mix == EmptyMix && !isShaking && pendingFinish == None
      ensures log == SystemReady && showHint
    {
      mix := EmptyMix;
      isShaking := false;
      log := SystemReady;
      showHint := true;
      pendingFinish := None;
    }

    /** A bottle of `t` released over the shaker. */
    method DropUnit(t: Ingredient) returns (accepted: bool)
      requires Valid()
      modifies this
      ensures Valid()
      ensures accepted == HasRoom(old(mix))
      ensures mix == Apply(old(mix), Drop(t)) == AddOne(old(mix), t)
      ensures log == if accepted then SeqLoad(t) else OverflowCapacityLimit
      ensures showHint == (old(showHint) && !accepted)
      ensures isShaking == old(isShaking) && pendingFinish == old(pendingFinish)
    {
      AddOneKeepsLimits(mix, t);
      var total := mix.ingredients.Total();
      if total >= 20 {
        log := OverflowCapacityLimit;
        return false;
      }
      mix := Pour(mix, t);
      log := SeqLoad(t);
      showHint := false;
      accepted := true;
    }

    /** The ICED button: flips `iced` only. */
    method ToggleIced()
      requires Valid()
      modifies this
      ensures Valid()
      ensures mix == Apply(old(mix), IcedButton) == old(mix).(iced := !old(mix).iced)
      ensures log == if old(mix).iced then UnsetCryo else SetCryo
      ensures isShaking == old(isShaking) && pendingFinish == old(pendingFinish) && showHint == old(showHint)
    {
      log := if mix.iced then UnsetCryo else SetCryo;
      mix := mix.(iced := !mix.iced);
    }

    /** The AGED button: flips `aged` only. */
    method ToggleAged()
      requires Valid()
      modifies this
      ensures Valid()
      ensures mix == Apply(old(mix), AgedButton) == old(mix).(aged := !old(mix).aged)
      ensures log == if old(mix).aged then UnsetChrono else SetChrono
      ensures isShaking == old(isShaking) && pendingFinish == old(pendingFinish) && showHint == old(showHint)
    {
      log := if mix.aged then UnsetChrono else SetChrono;
      mix := mix.(aged := !mix.aged);
    }

    /** The Flush button: every amount back to 0, both modifiers off. */
    method Flush()
      requires Valid()
      modifies this
      ensures Valid()
      ensures mix == Apply(old(mix), FlushButton) == EmptyMix
      ensures log == ChamberClear
      ensures isShaking == old(isShaking) && pendingFinish == old(pendingFinish) && showHint == old(showHint)
    {
      mix := EmptyMix;
      log := ChamberClear;
    }

    /** The Mix button. It is disabled while shaking; an empty shaker is refused;
        otherwise the shake starts and the current mix is captured for scoring. */
    method PressMix() returns (outcome: MixPress)
      requires Valid()
      modifies this
      ensures Valid()
      ensures mix == old(mix) && showHint == old(showHint)
      ensures old(isShaking) ==>
                outcome == Disabled && log == old(log) && isShaking && pendingFinish == old(pendingFinish)
      ensures !old(isShaking) && old(mix).ingredients.Total() == 0 ==>
                outcome == RefusedEmpty && log == ChamberEmpty && !isShaking && pendingFinish == None
      ensures !old(isShaking) && old(mix).ingredients.Total() != 0 ==>
                outcome == Shaking && log == MolecularBonding
                && isShaking && pendingFinish == Some(old(mix))
    {
      if isShaking {
        return Disabled;
      }
      var total := mix.ingredients.Total();
      if total == 0 {
        log := ChamberEmpty;
        return RefusedEmpty;
      }
      isShaking := true;
      log := MolecularBonding;
      pendingFinish := Some(mix);
      outcome := Shaking;
    }

    /** The shake timer fires: shaking stops and the mix captured when Mix was
        pressed (not the current one) is handed on to be scored. */
    method ShakeDone() returns (served: MixState)
      requires Valid() && pendingFinish.Some?
      modifies this
      ensures Valid()
      ensures served == old(pendingFinish).value
      ensures served.ingredients.WithinLimits() && served.ingredients.Total() > 0
      ensures !isShaking && pendingFinish == None
      ensures mix == old(mix) && log == old(log) && showHint == old(showHint)
    {
      served := pendingFinish.value;
      isShaking := false;
      pendingFinish := None;
    }
  }
}
