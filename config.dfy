/**
 * The pricing constants of the platform: read-only values fixed at start-up
 * and never changed afterwards.
 */
module Config {
  import opened Text

  /** Price per cubic millimetre. */
  const BasePrice: real := 0.001

  /** Multiplier per material, keyed by lower-case material name. */
  const MaterialMultipliers: map<string, real> :=
    map["aluminum" := 1.0, "steel" := 1.2, "titanium" := 3.0, "plastic" := 0.5]

  /** Multiplier per surface treatment, keyed by lower-case treatment name. */
  const SurfaceTreatmentMultipliers: map<string, real> :=
    map["none" := 1.0, "anodizing" := 1.3, "powder_coating" := 1.2, "machining" := 1.5]

  const DefaultDeliveryTime: string := "5-7 business days"

  /** Declared bounds; the pricing path never consults them. */
  const MaxQuantity: int := 10000
  const MinDimension: real := 0.1
  const MaxDimension: real := 1000.0

  lemma BasePricePositive()
    ensures BasePrice > 0.0
  {
  }

  /** The material table: its four keys, all lower case, and their positive values. */
  lemma MaterialTable()
    ensures MaterialMultipliers.Keys == {"aluminum", "steel", "titanium", "plastic"}
    ensures forall k :: k in MaterialMultipliers ==> IsLower(k) && MaterialMultipliers[k] > 0.0
    ensures MaterialMultipliers["aluminum"] == 1.0 && MaterialMultipliers["steel"] == 1.2
    ensures MaterialMultipliers["titanium"] == 3.0 && MaterialMultipliers["plastic"] == 0.5
    ensures MaterialMultipliers["titanium"] > MaterialMultipliers["aluminum"]
  {
  }

  /** The surface table: its four keys, all lower case, every value at least
      the neutral 1.0 that "none" carries. */
  lemma SurfaceTreatmentTable()
    ensures SurfaceTreatmentMultipliers.Keys == {"none", "anodizing", "powder_coating", "machining"}
    ensures forall k :: k in SurfaceTreatmentMultipliers ==>
      IsLower(k) && SurfaceTreatmentMultipliers[k] >= 1.0
    ensures SurfaceTreatmentMultipliers["none"] == 1.0
    ensures SurfaceTreatmentMultipliers["anodizing"] == 1.3
    ensures SurfaceTreatmentMultipliers["powder_coating"] == 1.2
    ensures SurfaceTreatmentMultipliers["machining"] == 1.5
    ensures SurfaceTreatmentMultipliers["anodizing"] > SurfaceTreatmentMultipliers["none"]
  {
  }

  /** The declared bounds are consistent with one another. */
  lemma BoundsConsistent()
    ensures 0.0 < MinDimension < MaxDimension
    ensures MaxQuantity >= 1
  {
  }
}
