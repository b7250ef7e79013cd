/**
 * The price computation of `configure_part`: two multiplier lookups with a
 * neutral fallback, the volume, and the product formula.
 */
module Pricing {
  import opened Text
  import opened Rounding
  import opened Config
  import opened Part

  /** Case-insensitive lookup of `key` in `table`; a key the table does not
      know yields the neutral multiplier 1.0. */
  function Multiplier(table: map<string, real>, key: string): (m: real)
    ensures m in table.Values || m == 1.0
    ensures Lower(key) in table ==> m == table[Lower(key)]
    ensures Lower(key) !in table ==> m == 1.0
  {
    if Lower(key) in table then table[Lower(key)] else 1.0
  }

  /** The lookup does not depend on the case of the key. */
  lemma MultiplierIgnoresCase(table: map<string, real>, key: string)
    ensures Multiplier(table, key) == Multiplier(table, Lower(key))
  {
    LowerIdempotent(key);
  }

  /** A key written in lower case, as every table key is, is looked up as itself. */
  lemma MultiplierOfTableKey(table: map<string, real>, key: string)
    requires key in table && IsLower(key)
    ensures Multiplier(table, key) == table[key]
  {
    LowerOfLower(key);
  }

  function MaterialMultiplier(material: string): real {
    Multiplier(MaterialMultipliers, material)
  }

  function SurfaceMultiplier(surfaceTreatment: string): real {
    Multiplier(SurfaceTreatmentMultipliers, surfaceTreatment)
  }

  /** The material multiplier, written out per material name: the four known
      materials get their own factor and any other name gets exactly 1.0. */
  lemma MaterialMultiplierCases(material: string)
    ensures var k := Lower(material);
      MaterialMultiplier(material) ==
        if k == "aluminum" then 1.0
        else if k == "steel" then 1.2
        else if k == "titanium" then 3.0
        else if k == "plastic" then 0.5
        else 1.0
    ensures MaterialMultiplier(material) > 0.0
  {
  }

  /** The surface multiplier, written out per treatment name; it is never
      below the neutral 1.0. */
  lemma SurfaceMultiplierCases(surfaceTreatment: string)
    ensures var k := Lower(surfaceTreatment);
      SurfaceMultiplier(surfaceTreatment) ==
        if k == "none" then 1.0
        else if k == "anodizing" then 1.3
        else if k == "powder_coating" then 1.2
        else if k == "machining" then 1.5
        else 1.0
    ensures SurfaceMultiplier(surfaceTreatment) >= 1.0
  {
  }

  /** The volume of the part's bounding block; the hole diameter plays no part. */
  function Volume(d: Dimensions): real {
    d.length * d.width * d.thickness
  }

  /** The price formula as a function of its five factors. */
  function PriceFormula(basePrice: real, material: real, surface: real, volume: real, quantity: real): real {
    basePrice * material * surface * volume * quantity
  }

  /** The unrounded price of a configuration. */
  function RawPrice(c: PartConfiguration): real {
    PriceFormula(BasePrice, MaterialMultiplier(c.material), SurfaceMultiplier(c.surfaceTreatment),
                 Volume(c.dimensions), c.quantity as real)
  }

  /** The quoted price: the unrounded price rounded to two decimal places. */
  function EstimatedPrice(c: PartConfiguration): (p: real)
    ensures IsCents(p)
    ensures -0.005 <= p - BasePrice * MaterialMultiplier(c.material) * SurfaceMultiplier(c.surfaceTreatment)
                           * Volume(c.dimensions) * c.quantity as real <= 0.005
  {
    var raw := RawPrice(c);
    RoundCents(raw)
  }

  /** The unrounded price is exactly base price, both multipliers, volume and
      quantity multiplied together. */
  lemma RawPriceFormula(c: PartConfiguration)
    ensures RawPrice(c) ==
      0.001 * MaterialMultiplier(c.material) * SurfaceMultiplier(c.surfaceTreatment)
      * (c.dimensions.length * c.dimensions.width * c.dimensions.thickness) * c.quantity as real
  {
  }

  /** Changing only the hole diameter changes neither price. */
  lemma PriceIgnoresHoleDiameter(c: PartConfiguration, holeDiameter: real)
    ensures var c' := c.(dimensions := c.dimensions.(holeDiameter := holeDiameter));
      RawPrice(c') == RawPrice(c) && EstimatedPrice(c') == EstimatedPrice(c)
  {
    var c' := c.(dimensions := c.dimensions.(holeDiameter := holeDiameter));
    assert Volume(c'.dimensions) == Volume(c.dimensions);
  }

  /** A product of two non-negative factors grows with each factor. */
  lemma MulMonotone(x: real, x': real, y: real, y': real)
    requires 0.0 <= x <= x' && 0.0 <= y <= y'
    ensures 0.0 <= x * y <= x' * y'
  {
    assert x * y <= x' * y;
    assert x' * y <= x' * y';
  }

  /** With non-negative factors the formula is non-negative and non-decreasing
      in every factor at once. */
  lemma PriceFormulaMonotone(
    b: real, m: real, s: real, v: real, q: real,
    b': real, m': real, s': real, v': real, q': real)
    requires 0.0 <= b <= b' && 0.0 <= m <= m' && 0.0 <= s <= s'
    requires 0.0 <= v <= v' && 0.0 <= q <= q'
    ensures 0.0 <= PriceFormula(b, m, s, v, q) <= PriceFormula(b', m', s', v', q')
  {
    MulMonotone(b, b', m, m');
    MulMonotone(b * m, b' * m', s, s');
    MulMonotone(b * m * s, b' * m' * s', v, v');
    MulMonotone(b * m * s * v, b' * m' * s' * v', q, q');
  }

  /** With a positive base price and positive multipliers, a strictly larger
      factor gives a strictly larger price when the other factors are positive. */
  lemma PriceFormulaStrict(b: real, m: real, s: real, v: real, q: real, q': real)
    requires b > 0.0 && m > 0.0 && s > 0.0 && v > 0.0 && 0.0 <= q < q'
    ensures PriceFormula(b, m, s, v, q) < PriceFormula(b, m, s, v, q')
  {
    var k := b * m * s * v;
    assert k > 0.0 by {
      assert b * m > 0.0;
      assert b * m * s > 0.0;
    }
    assert k * q < k * q';
  }

  /** For non-negative dimensions and quantity the unrounded and the quoted
      price are non-negative. */
  lemma PriceNonNegative(c: PartConfiguration)
    requires c.dimensions.length >= 0.0 && c.dimensions.width >= 0.0 && c.dimensions.thickness >= 0.0
    requires c.quantity >= 0
    ensures RawPrice(c) >= 0.0 && EstimatedPrice(c) >= 0.0
  {
    var m, s := MaterialMultiplier(c.material), SurfaceMultiplier(c.surfaceTreatment);
    MaterialMultiplierCases(c.material);
    SurfaceMultiplierCases(c.surfaceTreatment);
    MulMonotone(0.0, c.dimensions.length, 0.0, c.dimensions.width);
    MulMonotone(0.0, c.dimensions.length * c.dimensions.width, 0.0, c.dimensions.thickness);
    var v := Volume(c.dimensions);
    PriceFormulaMonotone(BasePrice, m, s, v, c.quantity as real, BasePrice, m, s, v, c.quantity as real);
    RoundCentsNonNegative(RawPrice(c));
  }

  /** `c'` differs from `c` only in ways that can only raise the price: a
      material and a surface treatment whose multipliers are no smaller, no
      smaller dimensions, and no smaller quantity. */
  predicate Dominates(c': PartConfiguration, c: PartConfiguration) {
    && MaterialMultiplier(c.material) <= MaterialMultiplier(c'.material)
    && SurfaceMultiplier(c.surfaceTreatment) <= SurfaceMultiplier(c'.surfaceTreatment)
    && 0.0 <= c.dimensions.length <= c'.dimensions.length
    && 0.0 <= c.dimensions.width <= c'.dimensions.width
    && 0.0 <= c.dimensions.thickness <= c'.dimensions.thickness
    && 0 <= c.quantity <= c'.quantity
  }

  /** Raising any of the multipliers, the dimensions or the quantity never
      lowers the unrounded or the quoted price. */
  lemma PriceMonotone(c: PartConfiguration, c': PartConfiguration)
    requires Dominates(c', c)
    ensures RawPrice(c) <= RawPrice(c')
    ensures EstimatedPrice(c) <= EstimatedPrice(c')
  {
    var d, d' := c.dimensions, c'.dimensions;
    MaterialMultiplierCases(c.material);
    SurfaceMultiplierCases(c.surfaceTreatment);
    MulMonotone(d.length, d'.length, d.width, d'.width);
    MulMonotone(d.length * d.width, d'.length * d'.width, d.thickness, d'.thickness);
    PriceFormulaMonotone(
      BasePrice, MaterialMultiplier(c.material), SurfaceMultiplier(c.surfaceTreatment),
      Volume(d), c.quantity as real,
      BasePrice, MaterialMultiplier(c'.material), SurfaceMultiplier(c'.surfaceTreatment),
      Volume(d'), c'.quantity as real);
    RoundCentsMonotone(RawPrice(c), RawPrice(c'));
  }

  /** With positive dimensions, the unrounded price strictly increases with
      the quantity. */
  lemma RawPriceStrictInQuantity(c: PartConfiguration, quantity: int)
    requires c.dimensions.length > 0.0 && c.dimensions.width > 0.0 && c.dimensions.thickness > 0.0
    requires 0 <= c.quantity < quantity
    ensures RawPrice(c) < RawPrice(c.(quantity := quantity))
  {
    var d := c.dimensions;
    MaterialMultiplierCases(c.material);
    SurfaceMultiplierCases(c.surfaceTreatment);
    assert d.length * d.width > 0.0;
    assert Volume(d) > 0.0;
    PriceFormulaStrict(BasePrice, MaterialMultiplier(c.material), SurfaceMultiplier(c.surfaceTreatment),
                       Volume(d), c.quantity as real, quantity as real);
  }
}
