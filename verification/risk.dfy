/** Cash-out risk policy (Assets/Scripts/Core/Risk/RiskPolicy.cs). The
    strategies are stateless; the policy holds three of them and never
    changes after construction, so both are values here. The ZoneService
    argument of `Applies` only supplies the pure zone predicates and is
    dropped. */
module Risk {
  import opened Zones

  datatype RiskStrategy = SafeZoneStrategy | SuperZoneStrategy | DefaultRiskStrategy
  {
    predicate Applies(zone: int) {
      match this
      case SafeZoneStrategy => IsSafeZone(zone)
      case SuperZoneStrategy => IsSuperZone(zone)
      case DefaultRiskStrategy => !IsSafeZone(zone) && !IsSuperZone(zone)
    }
  }

  datatype RiskPolicy = RiskPolicy(safe: RiskStrategy, super: RiskStrategy, normal: RiskStrategy)
  {
    /** Cash-out is allowed when the safe or the super strategy applies;
        the `normal` strategy is stored but not consulted. */
    predicate IsSafe(zone: int) {
      safe.Applies(zone) || super.Applies(zone)
    }
  }

  /** The policy installed at start-up (GameBootstrap.cs:48). */
  const StandardPolicy := RiskPolicy(SafeZoneStrategy, SuperZoneStrategy, DefaultRiskStrategy)

  /** Replacing the `normal` strategy never changes the verdict. */
  lemma NormalNeverConsulted(p: RiskPolicy, other: RiskStrategy, zone: int)
    ensures p.IsSafe(zone) == p.(normal := other).IsSafe(zone)
  {
  }

  /** With the standard strategies, cash-out is allowed exactly at the
      multiples of 5, and the policy agrees with the direct test the
      states and the presenter perform. */
  lemma StandardPolicyIsMultipleOfFive(zone: int)
    ensures StandardPolicy.IsSafe(zone) <==> zone % 5 == 0
    ensures StandardPolicy.IsSafe(zone) == IsCashOutZone(zone)
  {
    CashOutZoneIffMultipleOfFive(zone);
  }

  /** The default strategy applies exactly where the policy refuses cash-out. */
  lemma DefaultIsComplement(zone: int)
    ensures DefaultRiskStrategy.Applies(zone) <==> !StandardPolicy.IsSafe(zone)
  {
  }

  /** Exactly one of the three standard strategies applies to every zone. */
  lemma StrategiesPartitionZones(zone: int)
    ensures SafeZoneStrategy.Applies(zone) || SuperZoneStrategy.Applies(zone) || DefaultRiskStrategy.Applies(zone)
    ensures !(SafeZoneStrategy.Applies(zone) && SuperZoneStrategy.Applies(zone))
    ensures !(SafeZoneStrategy.Applies(zone) && DefaultRiskStrategy.Applies(zone))
    ensures !(SuperZoneStrategy.Applies(zone) && DefaultRiskStrategy.Applies(zone))
  {
  }
}
