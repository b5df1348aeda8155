/** The reference pricing data: two six-month tiers. */
module Constants {
  import opened Types

  const Features: seq<string> := [
    "Tonte hebdomadaire (Mai - Oct)",
    "Coupe bordures (Trim) soignée",
    "Soufflage des résidus (Driveway/Walkway)"
  ]

  const JumeleTier: PricingTier := PricingTier(
    Jumele, "Maison de Ville / Jumelé", "Terrain standard urbain",
    175.0, 6, "", 40.0, Features)

  const DetacheTier: PricingTier := PricingTier(
    Detache, "Maison Détachée", "Terrain standard banlieue",
    195.0, 6, "", 50.0, Features)

  const PricingTiers: seq<PricingTier> := [JumeleTier, DetacheTier]

  /** No two tiers share an id, so a tier's id determines its pricing and its leaf flag. */
  lemma TierIdsUnique()
    ensures forall i, j :: 0 <= i < j < |PricingTiers| ==> PricingTiers[i].id != PricingTiers[j].id
  {
    assert PricingTiers[0].id == Jumele;
    assert PricingTiers[1].id == Detache;
  }
}
