/** Wheel configuration construction (Assets/Scripts/Core/Wheel/WheelConfigFactory.cs).
    Templates are immutable values; the Unity clone is a value copy, so the
    modifiers can only ever change the copy handed back. */
module WheelFactory {
  import opened WheelData
  import opened Zones

  /** Mathf.RoundToInt on the exact quotient p / q: the nearest integer,
      ties going to the even neighbour. */
  function RoundHalfEven(p: int, q: int): (r: int)
    requires q > 0
    ensures -q <= 2 * (p - r * q) <= q
    ensures (2 * (p - r * q) == q || 2 * (p - r * q) == -q) ==> r % 2 == 0
  {
    var fl, rem := p / q, p % q;
    assert p - fl * q == rem;
    assert p - (fl + 1) * q == rem - q;
    if 2 * rem < q then fl
    else if 2 * rem > q then fl + 1
    else if fl % 2 == 0 then fl
    else fl + 1
  }

  /** Rounding an exact quotient gives the quotient itself. */
  lemma RoundExact(k: int, q: int)
    requires q > 0
    ensures RoundHalfEven(k * q, q) == k
  {
    var r := RoundHalfEven(k * q, q);
    var d := k - r;
    assert k * q - r * q == d * q;
  }

  /** The only modifier the source has: ScaleRewardsByTier(step, tierSpan),
      with the float `step` held exactly as stepNum / stepDen. */
  datatype Modifier = ScaleRewardsByTier(stepNum: int, stepDen: int, tierSpan: int)
  {
    predicate WellFormed() {
      stepDen > 0 && tierSpan > 0
    }

    /** floor((zone - 1) / tierSpan); Dafny's division floors for a positive divisor. */
    function Tier(zone: int): int
      requires WellFormed()
    {
      (zone - 1) / tierSpan
    }

    /** round(value * (1 + Tier(zone) * step)), computed exactly. */
    function ScaledValue(value: int, zone: int): int
      requires WellFormed()
    {
      RoundHalfEven(value * (stepDen + Tier(zone) * stepNum), stepDen)
    }

    /** Reward and Multiplier slices are rescaled; Bomb slices are left alone. */
    function ScaleSlice(zone: int, s: SliceDef): (r: SliceDef)
      requires WellFormed()
      ensures r.id == s.id && r.kind == s.kind && r.icon == s.icon
      ensures s.kind == Bomb ==> r == s
    {
      if s.kind == Reward || s.kind == Multiplier then s.(value := ScaledValue(s.value, zone)) else s
    }

    /** The configuration after this modifier's Apply. */
    function Scaled(zone: int, cfg: WheelConfig): (r: WheelConfig)
      requires WellFormed()
    {
      cfg.(slices := seq(|cfg.slices|, i requires 0 <= i < |cfg.slices| => ScaleSlice(zone, cfg.slices[i])))
    }
  }

  /** ScaleRewardsByTier() with its defaults: step 0.15 = 3/20, tierSpan 5. */
  const DefaultScaling := ScaleRewardsByTier(3, 20, 5)

  /** ScaleRewardsByTier.Apply: rewrites each Reward or Multiplier slice in
      turn; slice count, order, ids, kinds and icons are kept and only the
      values change. The loop body follows the source's statements; the
      value it computes is `ScaledValue`. */
  method ApplyModifier(m: Modifier, zone: int, cfg: WheelConfig) returns (out: WheelConfig)
    requires m.WellFormed()
    ensures |out.slices| == |cfg.slices|
    ensures out.(slices := cfg.slices) == cfg
    ensures forall i :: 0 <= i < |cfg.slices| ==> out.slices[i] == m.ScaleSlice(zone, cfg.slices[i])
  {
    out := cfg;
    var i := 0;
    while i < |out.slices|
      invariant 0 <= i <= |out.slices| == |cfg.slices|
      invariant out.(slices := cfg.slices) == cfg
      invariant forall k :: 0 <= k < i ==> out.slices[k] == m.ScaleSlice(zone, cfg.slices[k])
      invariant forall k :: i <= k < |out.slices| ==> out.slices[k] == cfg.slices[k]
    {
      var s := out.slices[i];
      if s.kind == Reward || s.kind == Multiplier {
        s := s.(value := RoundHalfEven(s.value * (m.stepDen + ((zone - 1) / m.tierSpan) * m.stepNum), m.stepDen));
        out := out.(slices := out.slices[i := s]);
      }
      i := i + 1;
    }
  }

  /** Running `mods` in the order they were added. */
  function ApplyChain(mods: seq<Modifier>, zone: int, cfg: WheelConfig): WheelConfig
    requires forall k :: 0 <= k < |mods| ==> mods[k].WellFormed()
    decreases |mods|
  {
    if mods == [] then cfg
    else mods[|mods| - 1].Scaled(zone, ApplyChain(mods[..|mods| - 1], zone, cfg))
  }

  /** The template tier for a zone: safe before super, then the rest. */
  function TierFor(zone: int): WheelType {
    if IsSafeZone(zone) then Silver else if IsSuperZone(zone) then Gold else Bronze
  }

  lemma TierByDivisibility(zone: int)
    ensures TierFor(zone) == Gold <==> zone % 30 == 0
    ensures TierFor(zone) == Silver <==> zone % 5 == 0 && zone % 30 != 0
    ensures TierFor(zone) == Bronze <==> zone % 5 != 0
    ensures TierFor(5) == Silver && TierFor(30) == Gold && TierFor(1) == Bronze
  {
    ClassificationByDivisibility(zone);
    CashOutZoneIffMultipleOfFive(zone);
    ClassificationByDivisibility(5);
    ClassificationByDivisibility(30);
  }

  class WheelConfigFactory {
    const templates: map<WheelType, WheelConfig>
    var modifiers: seq<Modifier>

    ghost predicate Valid()
      reads this
    {
      && Bronze in templates && Silver in templates && Gold in templates
      && forall k :: 0 <= k < |modifiers| ==> modifiers[k].WellFormed()
    }

    constructor (templates: map<WheelType, WheelConfig>)
      requires Bronze in templates && Silver in templates && Gold in templates
      ensures Valid() && this.templates == templates && modifiers == []
    {
      this.templates := templates;
      modifiers := [];
    }

    /** Appends a modifier and returns the factory itself, for chaining. */
    method AddModifier(m: Modifier) returns (self: WheelConfigFactory)
      requires Valid() && m.WellFormed()
      modifies this
      ensures Valid() && self == this && modifiers == old(modifiers) + [m]
    {
      modifiers := modifiers + [m];
      self := this;
    }

    function Built(zone: int): WheelConfig
      reads this
      requires Valid()
    {
      ApplyChain(modifiers, zone, templates[TierFor(zone)])
    }

    /** Copies the template of the current zone's tier and runs every
      modifier on the copy, first added first. The template is picked by
      the source's own if-chain; `TierFor` is the tier it picks. */
    method BuildFor(zones: ZoneService) returns (cfg: WheelConfig)
      requires Valid()
      ensures cfg == ApplyChain(modifiers, zones.currentZone, templates[TierFor(zones.currentZone)])
    {
      var zone := zones.currentZone;
      var prototype;
      if IsSafeZone(zone) {
        prototype := templates[Silver];
      } else if IsSuperZone(zone) {
        prototype := templates[Gold];
      } else {
        prototype := templates[Bronze];
      }
      cfg := prototype;
      var i := 0;
      while i < |modifiers|
        invariant 0 <= i <= |modifiers|
        invariant cfg == ApplyChain(modifiers[..i], zone, prototype)
      {
        assert modifiers[..i + 1][..i] == modifiers[..i];
        cfg := ApplyModifier(modifiers[i], zone, cfg);
        i := i + 1;
      }
      assert modifiers[..i] == modifiers;
    }
  }

  /** With the installed chain, a build applies the tier factor exactly once
      to each slice of the template. */
  lemma {:induction false} DefaultChainScalesOnce(zone: int, template: WheelConfig, i: int)
    requires 0 <= i < |template.slices|
    ensures |ApplyChain([DefaultScaling], zone, template).slices| == |template.slices|
    ensures ApplyChain([DefaultScaling], zone, template).slices[i] == DefaultScaling.ScaleSlice(zone, template.slices[i])
  {
    assert [DefaultScaling][..0] == [];
  }

  /** Zones 1 to 5 are tier 0: values are unscaled. */
  lemma FirstTierUnscaled(zone: int, value: int)
    requires 1 <= zone <= 5
    ensures DefaultScaling.ScaledValue(value, zone) == value
  {
    assert DefaultScaling.Tier(zone) == 0;
    RoundExact(value, 20);
  }

  /** The factor grows linearly with the tier and has no cap: from zone
      5k+1 on, a value of 100 becomes 100 + 15k. At zone 6 that is 115. */
  lemma LinearUncapped(k: nat)
    ensures DefaultScaling.ScaledValue(100, 5 * k + 1) == 100 + 15 * k
    ensures DefaultScaling.ScaledValue(100, 6) == 115
  {
    assert DefaultScaling.Tier(5 * k + 1) == k;
    assert 100 * (20 + k * 3) == (100 + 15 * k) * 20;
    RoundExact(100 + 15 * k, 20);
    assert DefaultScaling.Tier(6) == 1;
    RoundExact(115, 20);
  }

  /** Scaling the same copy twice would compound: at zone 6 a value of 100
      would become 132 rather than 115. BuildFor avoids it by starting each
      call from the template. */
  lemma ScalingTwiceCompounds()
    ensures DefaultScaling.ScaledValue(DefaultScaling.ScaledValue(100, 6), 6) == 132
  {
    LinearUncapped(1);
    assert 115 * 23 == 2645 && 2645 / 20 == 132 && 2645 % 20 == 5;
  }
}
