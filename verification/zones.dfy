/** Zone tracking and classification (Assets/Scripts/Core/Game/ZoneService.cs). */
module Zones {
  import opened WheelData
  import opened CSharpArith

  /** A safe zone is a multiple of 5 that is not a multiple of 30
      (written with C#'s truncating remainder). */
  predicate IsSafeZone(zone: int) {
    CsRem(zone, 5) == 0 && CsRem(zone, 30) != 0
  }

  /** A super zone is a multiple of 30. */
  predicate IsSuperZone(zone: int) {
    CsRem(zone, 30) == 0
  }

  /** The test the states and the presenter apply before offering cash-out. */
  predicate IsCashOutZone(zone: int) {
    IsSafeZone(zone) || IsSuperZone(zone)
  }

  predicate Divides(n: int, m: int)
    requires n > 0
  {
    m % n == 0
  }

  lemma ClassificationByDivisibility(zone: int)
    ensures IsSuperZone(zone) <==> zone % 30 == 0
    ensures IsSafeZone(zone) <==> zone % 5 == 0 && zone % 30 != 0
    ensures !(IsSafeZone(zone) && IsSuperZone(zone))
  {
    CsRemZeroIffDivides(zone, 5);
    CsRemZeroIffDivides(zone, 30);
  }

  /** Safe and super zones together are exactly the multiples of 5. */
  lemma CashOutZoneIffMultipleOfFive(zone: int)
    ensures IsCashOutZone(zone) <==> zone % 5 == 0
  {
    ClassificationByDivisibility(zone);
    if zone % 30 == 0 {
      var q := zone / 30;
      assert zone == (6 * q) * 5 + 0;
      DivModUnique(zone, 5, 6 * q, 0);
    }
  }

  lemma MulStrictMono(a: int, b: int, n: int)
    requires n > 0 && a * n < b * n
    ensures a < b
  {
  }

  /** The least multiple of `n` at or above (strictly above, when
      `strictlyGreater`) `from`, with `from` first clamped to at least 1. */
  function NextMultipleOf(n: int, from: int, strictlyGreater: bool): (r: int)
    requires n > 0
    ensures Divides(n, r)
    ensures r >= Max(1, from) && (strictlyGreater ==> r > Max(1, from))
    ensures forall m :: Max(1, from) <= m < r && (strictlyGreater ==> m != Max(1, from)) ==> !Divides(n, m)
  {
    var f := if from < 1 then 1 else from;
    if !strictlyGreater && f % n == 0 then f
    else
      var r := (f / n + 1) * n;
      NextMultipleFacts(n, f, r);
      r
  }

  lemma NextMultipleFacts(n: int, f: int, r: int)
    requires n > 0 && f >= 1 && r == (f / n + 1) * n
    ensures r % n == 0 && r > f
    ensures forall m :: f < m < r ==> !Divides(n, m)
  {
    var q := f / n;
    assert f == q * n + f % n;
    assert r == q * n + n;
    DivModUnique(r, n, q + 1, 0);
    forall m | f < m < r
      ensures !Divides(n, m)
    {
      if m % n == 0 {
        var k := m / n;
        assert m == k * n;
        MulStrictMono(q, k, n);
        MulStrictMono(k, q + 1, n);
      }
    }
  }

  /** ZoneService.GetNextSafeZone: the next multiple of 5. */
  function GetNextSafeZone(fromZone: int, strictlyGreater: bool): (r: int)
    ensures r % 5 == 0 && r >= 1
    ensures strictlyGreater ==> r > fromZone
    ensures !strictlyGreater ==> r >= fromZone
    ensures IsCashOutZone(r)
  {
    var r := NextMultipleOf(5, fromZone, strictlyGreater);
    CashOutZoneIffMultipleOfFive(r);
    r
  }

  /** ZoneService.GetNextSuperZone: the next multiple of 30. */
  function GetNextSuperZone(fromZone: int, strictlyGreater: bool): (r: int)
    ensures r % 30 == 0 && r >= 1
    ensures strictlyGreater ==> r > fromZone
    ensures !strictlyGreater ==> r >= fromZone
    ensures IsSuperZone(r)
  {
    var r := NextMultipleOf(30, fromZone, strictlyGreater);
    ClassificationByDivisibility(r);
    r
  }

  /** The next "safe" zone after 29 is 30, which classifies as super and not safe. */
  lemma NextSafeAfter29IsSuper()
    ensures GetNextSafeZone(29, true) == 30
    ensures IsSuperZone(30) && !IsSafeZone(30)
    ensures GetNextSafeZone(5, false) == 5
  {
    assert !Divides(5, 29);
  }

  /** The zone counter. `startZone` is a serialized setting that does not
      change at run time; `notified` records every ZoneChanged invocation. */
  class ZoneService {
    const startZone: int
    var currentZone: int
    ghost var notified: seq<int>

    ghost predicate Valid()
      reads this
    {
      currentZone >= 1
    }

    /** OnEnable: the one silent assignment of the start zone. */
    constructor (startZone: int)
      ensures Valid() && this.startZone == startZone
      ensures currentZone == Max(1, startZone) && notified == []
    {
      this.startZone := startZone;
      notified := [];
      new;
      SetCurrent(startZone, false);
    }

    method SetCurrent(zone: int, notify: bool)
      modifies this
      ensures Valid() && currentZone == Max(1, zone)
      ensures notified == if notify then old(notified) + [currentZone] else old(notified)
    {
      currentZone := if 1 >= zone then 1 else zone;
      if notify {
        notified := notified + [currentZone];
      }
    }

    /** Moves one zone up and notifies observers with the new value. */
    method Advance()
      requires Valid()
      modifies this
      ensures Valid() && currentZone == old(currentZone) + 1
      ensures notified == old(notified) + [currentZone]
    {
      SetCurrent(currentZone + 1, true);
    }

    /** Returns to the start zone; unlike OnEnable this does notify. */
    method Reset()
      modifies this
      ensures Valid() && currentZone == Max(1, startZone)
      ensures notified == old(notified) + [currentZone]
    {
      SetCurrent(startZone, true);
    }
  }
}
