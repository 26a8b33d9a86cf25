/**
 * The baseline reference values and the projected annual indicators computed
 * from the slider parameters. Tonnages that carry a fraction (waste valorised,
 * avoided agrochemicals) are whole numbers of hundredths of a ton, which is
 * exact because every input they come from is an integer or a whole number
 * of hundredths.
 */
module Indicators {
  import opened Sliders

  // Baseline (reference scenario), never edited by the user.
  const BaseWasteValorized := 90          // ton/year
  const BaseEnergyGenerated := 20000      // kWh/year
  const BaseBiofertilizer := 35           // ton/year
  const BaseTotalRevenue := 9000000       // CLP/year

  // Fixed indicators.
  const TrainedPeople := 30
  const CollaborativeAlliances := 4

  /** Treated tonnage times the valorisation rate, in hundredths of a ton. */
  function WasteValorized(treated: int, rateHundredths: int): (h: int)
    ensures h as real / 100.0 == (treated as real) * (rateHundredths as real / 100.0)
  {
    treated * rateHundredths
  }

  /** Synthetic agrochemicals avoided: ten per cent of the biofertilizer tonnage, in hundredths of a ton. */
  function AvoidedAgrochemicals(biofertilizerTons: int): (h: int)
    ensures h as real / 100.0 == (biofertilizerTons as real) * 0.1
  {
    10 * biofertilizerTons
  }

  /** Baseline avoided agrochemicals, from the baseline biofertilizer tonnage by the same rule. */
  const BaseAvoidedAgrochemicals := AvoidedAgrochemicals(BaseBiofertilizer)

  /** The projected indicators; tonnages in hundredths of a ton, revenues in CLP. */
  datatype Indicators = Indicators(
    wasteValorized: int,
    avoidedAgrochemicals: int,
    energyRevenue: int,
    biofertilizerRevenue: int,
    totalRevenue: int,
    trainedPeople: int,
    alliances: int)

  /**
   * The indicators for one parameter set. Defined for every parameter set:
   * nothing is clamped to the slider ranges.
   */
  function Compute(p: Params): (m: Indicators)
    ensures m.totalRevenue == m.energyRevenue + m.biofertilizerRevenue
    ensures m.trainedPeople == TrainedPeople && m.alliances == CollaborativeAlliances
  {
    var energyRevenue := p.energyGenerated * p.energyPrice;
    var biofertilizerRevenue := p.biofertilizer * p.biofertilizerPrice;
    Indicators(
      WasteValorized(p.wasteTreated, p.valorizationRate),
      AvoidedAgrochemicals(p.biofertilizer),
      energyRevenue,
      biofertilizerRevenue,
      energyRevenue + biofertilizerRevenue,
      TrainedPeople,
      CollaborativeAlliances)
  }

  /** Products of non-negative factors grow with each factor. */
  lemma {:induction false} ProductBounds(a: int, b: int, lo: int, hi: int, loB: int, hiB: int)
    requires 0 <= lo <= a <= hi && 0 <= loB <= b <= hiB
    ensures lo * loB <= a * b <= hi * hiB
  {
    assert lo * loB <= a * loB <= a * b;
    assert a * b <= hi * b <= hi * hiB;
  }

  /** For admitted sliders, each revenue lies in the range spanned by the slider extremes. */
  lemma {:induction false} RevenueBounds(p: Params)
    requires InRange(p)
    ensures 1500000 <= Compute(p).energyRevenue <= 15000000
    ensures 3000000 <= Compute(p).biofertilizerRevenue <= 40000000
    ensures 4500000 <= Compute(p).totalRevenue <= 55000000
  {
    ProductBounds(p.energyGenerated, p.energyPrice, 15000, 50000, 100, 300);
    ProductBounds(p.biofertilizer, p.biofertilizerPrice, 30, 80, 100000, 500000);
  }

  /** The revenue bounds are attained: by every slider at its minimum, and by every slider at its maximum. */
  lemma RevenueBoundsAttained()
    ensures InRange(Params(80, 70, 15000, 30, 10, 100, 100000))
    ensures Compute(Params(80, 70, 15000, 30, 10, 100, 100000)).totalRevenue == 4500000
    ensures InRange(Params(200, 100, 50000, 80, 50, 300, 500000))
    ensures Compute(Params(200, 100, 50000, 80, 50, 300, 500000)).totalRevenue == 55000000
    ensures Compute(Params(200, 100, 50000, 80, 50, 300, 500000)).biofertilizerRevenue == 40000000
  {
    ExtremesInRange();
  }

  /** Raising any revenue-bearing input (quantities or prices, all non-negative) never lowers total revenue. */
  lemma {:induction false} RevenueMonotone(p: Params, q: Params)
    requires InRange(p) && InRange(q)
    requires p.energyGenerated <= q.energyGenerated && p.energyPrice <= q.energyPrice
    requires p.biofertilizer <= q.biofertilizer && p.biofertilizerPrice <= q.biofertilizerPrice
    ensures Compute(p).energyRevenue <= Compute(q).energyRevenue
    ensures Compute(p).biofertilizerRevenue <= Compute(q).biofertilizerRevenue
    ensures Compute(p).totalRevenue <= Compute(q).totalRevenue
  {
    ProductBounds(p.energyGenerated, p.energyPrice, p.energyGenerated, q.energyGenerated,
                  p.energyPrice, q.energyPrice);
    ProductBounds(q.energyGenerated, q.energyPrice, p.energyGenerated, q.energyGenerated,
                  p.energyPrice, q.energyPrice);
    ProductBounds(p.biofertilizer, p.biofertilizerPrice, p.biofertilizer, q.biofertilizer,
                  p.biofertilizerPrice, q.biofertilizerPrice);
    ProductBounds(q.biofertilizer, q.biofertilizerPrice, p.biofertilizer, q.biofertilizer,
                  p.biofertilizerPrice, q.biofertilizerPrice);
  }

  /**
   * For admitted sliders the valorised waste lies between 70 % of the treated
   * tonnage and the whole of it, hence between 56.00 and 200.00 tons.
   */
  lemma {:induction false} WasteValorizedBounds(p: Params)
    requires InRange(p)
    ensures 70 * p.wasteTreated <= Compute(p).wasteValorized <= 100 * p.wasteTreated
    ensures 5600 <= Compute(p).wasteValorized <= 20000
  {
    ProductBounds(p.wasteTreated, p.valorizationRate, p.wasteTreated, p.wasteTreated, 70, 100);
    ProductBounds(p.wasteTreated, p.valorizationRate, 80, 200, 70, 100);
  }

  /** Treating the most waste at a rate of 1.00 valorises all of it: 200.00 tons. */
  lemma UpperWasteScenario(p: Params)
    requires p.wasteTreated == 200 && p.valorizationRate == 100
    ensures Compute(p).wasteValorized == 20000
  {
  }

  /** Avoided agrochemicals are one tenth of the biofertilizer tonnage; the baseline value is 3.50 tons. */
  lemma AvoidedAgrochemicalsTenth(p: Params)
    ensures 10 * Compute(p).avoidedAgrochemicals == 100 * p.biofertilizer
    ensures BaseAvoidedAgrochemicals == 350
  {
  }

  /** The default scenario: 81.00 t valorised, 3.50 t avoided, CLP 3,000,000 + 7,000,000 = 10,000,000. */
  lemma DefaultScenario()
    ensures Compute(Defaults()) == Indicators(8100, 350, 3000000, 7000000, 10000000, 30, 4)
  {
  }

  /** The share of recycled materials feeds no indicator. */
  lemma RecycledMaterialsInert(p: Params, share: int)
    ensures Compute(p.(recycledMaterials := share)) == Compute(p)
  {
  }
}
