/** The concrete quotes the project's tests and demo script rely on. */
module Scenarios {
  import opened Text
  import opened Rounding
  import opened Config
  import opened Part
  import opened Pricing
  import opened Quoting

  /** A configuration whose unrounded price is a whole number of hundredths is
      quoted at exactly that price. */
  lemma QuotedAt(c: PartConfiguration, cents: int)
    requires RawPrice(c) * 100.0 == cents as real
    ensures ConfigurePart(c).estimatedPrice == cents as real / 100.0
  {
    RoundHalfEvenUnique(RawPrice(c) * 100.0, cents);
  }

  lemma AluminumMultiplier()
    ensures MaterialMultiplier("aluminum") == 1.0
  {
    MaterialTable();
    MultiplierOfTableKey(MaterialMultipliers, "aluminum");
  }

  lemma TitaniumMultiplier()
    ensures MaterialMultiplier("titanium") == 3.0
  {
    MaterialTable();
    MultiplierOfTableKey(MaterialMultipliers, "titanium");
  }

  lemma NoneMultiplier()
    ensures SurfaceMultiplier("none") == 1.0
  {
    SurfaceTreatmentTable();
    MultiplierOfTableKey(SurfaceTreatmentMultipliers, "none");
  }

  lemma AnodizingMultiplier()
    ensures SurfaceMultiplier("anodizing") == 1.3
  {
    SurfaceTreatmentTable();
    MultiplierOfTableKey(SurfaceTreatmentMultipliers, "anodizing");
  }

  /** Material names are matched regardless of case. */
  lemma MixedCaseTitaniumMultiplier()
    ensures MaterialMultiplier("TiTaNiUm") == 3.0
  {
    var s := "TiTaNiUm";
    var r := Lower(s);
    assert r[0] == 't' && r[1] == 'i' && r[2] == 't' && r[3] == 'a';
    assert r[4] == 'n' && r[5] == 'i' && r[6] == 'u' && r[7] == 'm';
    assert r == "titanium";
    MultiplierIgnoresCase(MaterialMultipliers, s);
    TitaniumMultiplier();
  }

  /** The multipliers the scenarios below use. */
  lemma ScenarioMultipliers()
    ensures MaterialMultiplier("aluminum") == 1.0 && MaterialMultiplier("titanium") == 3.0
    ensures SurfaceMultiplier("none") == 1.0 && SurfaceMultiplier("anodizing") == 1.3
  {
    AluminumMultiplier();
    TitaniumMultiplier();
    NoneMultiplier();
    AnodizingMultiplier();
  }

  /** 10 x 10 x 1 mm, aluminum, no surface treatment, one piece. */
  const Baseline: PartConfiguration :=
    PartConfiguration("aluminum", "none", Dimensions(10.0, 10.0, 1.0, 2.0), 1)

  lemma BaselineQuote()
    ensures ConfigurePart(Baseline).estimatedPrice == 0.10
  {
    ScenarioMultipliers();
    assert RawPrice(Baseline) == 0.1;
    QuotedAt(Baseline, 10);
  }

  /** Titanium makes the baseline part strictly more expensive. */
  lemma BaselineTitaniumDearer()
    ensures ConfigurePart(Baseline.(material := "titanium")).estimatedPrice == 0.30
    ensures ConfigurePart(Baseline.(material := "titanium")).estimatedPrice > ConfigurePart(Baseline).estimatedPrice
  {
    var c := Baseline.(material := "titanium");
    ScenarioMultipliers();
    assert RawPrice(c) == 0.3;
    QuotedAt(c, 30);
    BaselineQuote();
  }

  /** Anodizing makes the baseline part strictly more expensive. */
  lemma BaselineAnodizingDearer()
    ensures ConfigurePart(Baseline.(surfaceTreatment := "anodizing")).estimatedPrice == 0.13
    ensures ConfigurePart(Baseline.(surfaceTreatment := "anodizing")).estimatedPrice > ConfigurePart(Baseline).estimatedPrice
  {
    var c := Baseline.(surfaceTreatment := "anodizing");
    ScenarioMultipliers();
    assert RawPrice(c) == 0.13;
    QuotedAt(c, 13);
    BaselineQuote();
  }

  /** Five pieces of the baseline part cost strictly more than one. */
  lemma BaselineFivePiecesDearer()
    ensures ConfigurePart(Baseline.(quantity := 5)).estimatedPrice == 0.50
    ensures ConfigurePart(Baseline.(quantity := 5)).estimatedPrice > ConfigurePart(Baseline).estimatedPrice
  {
    var c := Baseline.(quantity := 5);
    ScenarioMultipliers();
    assert RawPrice(c) == 0.5;
    QuotedAt(c, 50);
    BaselineQuote();
  }

  /** 100 x 50 x 5 mm, aluminum, no surface treatment, one piece. */
  const Block: PartConfiguration :=
    PartConfiguration("aluminum", "none", Dimensions(100.0, 50.0, 5.0, 10.0), 1)

  /** The 100 x 50 x 5 mm block: 25.00 in aluminum, 125.00 for five pieces. */
  lemma BlockQuotes()
    ensures ConfigurePart(Block).estimatedPrice == 25.0
    ensures ConfigurePart(Block.(quantity := 5)).estimatedPrice == 125.0
  {
    ScenarioMultipliers();
    assert RawPrice(Block) == 25.0;
    assert RawPrice(Block.(quantity := 5)) == 125.0;
    QuotedAt(Block, 2500);
    QuotedAt(Block.(quantity := 5), 12500);
  }

  /** The block in titanium costs 75.00, whatever the case of the material name. */
  lemma BlockTitanium()
    ensures ConfigurePart(Block.(material := "titanium")).estimatedPrice == 75.0
    ensures ConfigurePart(Block.(material := "TiTaNiUm")).estimatedPrice == 75.0
  {
    var c, c' := Block.(material := "titanium"), Block.(material := "TiTaNiUm");
    ScenarioMultipliers();
    MixedCaseTitaniumMultiplier();
    assert RawPrice(c) == 75.0;
    assert RawPrice(c') == 75.0;
    QuotedAt(c, 7500);
    QuotedAt(c', 7500);
  }

  /** The anodized block costs 32.50. */
  lemma BlockAnodized()
    ensures ConfigurePart(Block.(surfaceTreatment := "anodizing")).estimatedPrice == 32.5
  {
    var c := Block.(surfaceTreatment := "anodizing");
    ScenarioMultipliers();
    assert RawPrice(c) == 32.5;
    QuotedAt(c, 3250);
  }

  /** 33.33 x 33.33 x 3.33 mm, aluminum, three pieces: the unrounded price
      11.097780111 is quoted as 11.10, two decimal places. */
  lemma PrecisionQuote()
    ensures var c := PartConfiguration("aluminum", "none", Dimensions(33.33, 33.33, 3.33, 5.0), 3);
      ConfigurePart(c).estimatedPrice == 11.10
  {
    var c := PartConfiguration("aluminum", "none", Dimensions(33.33, 33.33, 3.33, 5.0), 3);
    AluminumMultiplier();
    NoneMultiplier();
    assert Volume(c.dimensions) == 3699.260037;
    assert RawPrice(c) == 11.097780111;
    RoundHalfEvenUnique(1109.7780111, 1110);
  }

  /** The quoted price is only non-decreasing in quantity, not strictly
      increasing: a 1 mm cube of aluminum costs 0.00 for one and for two pieces,
      because both unrounded prices round down to zero. */
  lemma RoundedPriceNotStrictInQuantity()
    ensures var c := PartConfiguration("aluminum", "none", Dimensions(1.0, 1.0, 1.0, 0.0), 1);
      && RawPrice(c) < RawPrice(c.(quantity := 2))
      && ConfigurePart(c).estimatedPrice == ConfigurePart(c.(quantity := 2)).estimatedPrice == 0.0
  {
    var c := PartConfiguration("aluminum", "none", Dimensions(1.0, 1.0, 1.0, 0.0), 1);
    var c2 := c.(quantity := 2);
    AluminumMultiplier();
    NoneMultiplier();
    assert RawPrice(c) == 0.001;
    assert RawPrice(c2) == 0.002;
    RoundHalfEvenUnique(0.1, 0);
    RoundHalfEvenUnique(0.2, 0);
  }
}
