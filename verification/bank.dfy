/** The round's running total (Assets/Scripts/Systems/RewardBank.cs). */
module Bank {
  import opened WheelData

  /** The total after one slice: a Reward adds its value, a Multiplier
      multiplies by its value floored at 1, a Bomb has no case in the
      switch and changes nothing. The source rounds the product through
      a float; with integer operands that rounding is the identity. */
  function Applied(total: int, slice: SliceDef): int {
    match slice.kind
    case Reward => total + slice.value
    case Multiplier => total * Max(1, slice.value)
    case Bomb => total
  }

  /** The total after applying a sequence of slices in order. */
  function AppliedAll(total: int, slices: seq<SliceDef>): int
    decreases |slices|
  {
    if slices == [] then total else AppliedAll(Applied(total, slices[0]), slices[1..])
  }

  class RewardBank {
    var total: int

    constructor ()
      ensures total == 0
    {
      total := 0;
    }

    /** The switch of `Apply`, branch by branch; `Applied` is what it
        computes. */
    method Apply(slice: SliceDef)
      modifies this
      ensures total == Applied(old(total), slice)
    {
      match slice.kind {
        case Reward => total := total + slice.value;
        case Multiplier => total := total * (if 1 >= slice.value then 1 else slice.value);
        case Bomb =>
      }
    }

    method Reset()
      modifies this
      ensures total == 0
    {
      total := 0;
    }
  }

  /** What each kind of slice does to the total. */
  lemma AppliedByKind(total: int, slice: SliceDef)
    ensures slice.kind == Reward ==> Applied(total, slice) - total == slice.value
    ensures slice.kind == Bomb ==> Applied(total, slice) == total
    ensures slice.kind == Multiplier && slice.value <= 1 ==> Applied(total, slice) == total
    ensures slice.kind == Multiplier && slice.value > 1 ==> Applied(total, slice) == total * slice.value
  {
  }

  /** A non-negative total stays non-negative under any sequence of slices
      whose values are non-negative. */
  lemma {:induction false} NonNegativeStaysNonNegative(total: int, slices: seq<SliceDef>)
    requires total >= 0
    requires forall i :: 0 <= i < |slices| ==> slices[i].value >= 0
    ensures AppliedAll(total, slices) >= 0
    decreases |slices|
  {
    if slices != [] {
      var t := Applied(total, slices[0]);
      assert t >= 0 by {
        if slices[0].kind == Multiplier {
          assert t == total * Max(1, slices[0].value);
        }
      }
      NonNegativeStaysNonNegative(t, slices[1..]);
    }
  }

  /** Two Reward applications commute. */
  lemma RewardsCommute(total: int, a: SliceDef, b: SliceDef)
    requires a.kind == Reward && b.kind == Reward
    ensures Applied(Applied(total, a), b) == Applied(Applied(total, b), a)
  {
  }

  /** A Multiplier does not commute with a Reward: with total 0, a Reward
      of 10 then a x2 Multiplier gives 20, the other order gives 10. */
  lemma MultiplierDoesNotCommuteWithReward()
    ensures var r := SliceDef(Some("coin"), Reward, 10, None);
            var m := SliceDef(Some("x2"), Multiplier, 2, None);
            AppliedAll(0, [r, m]) == 20 && AppliedAll(0, [m, r]) == 10
  {
    var r := SliceDef(Some("coin"), Reward, 10, None);
    var m := SliceDef(Some("x2"), Multiplier, 2, None);
    assert [r, m][1..] == [m] && [m, r][1..] == [r];
    assert [m][1..] == [] && [r][1..] == [];
    assert AppliedAll(0, [r, m]) == AppliedAll(10, [m]) == AppliedAll(20, []);
    assert AppliedAll(0, [m, r]) == AppliedAll(0, [r]) == AppliedAll(10, []);
  }
}
