/**
 * The seven sidebar sliders of the P13 impact visualiser and the parameter
 * set they produce. Fractional sliders (valorisation rate, share of recycled
 * materials) move in steps of 0.01, so they are held here as whole numbers of
 * hundredths: 0.90 is 90. Every admissible slider position is then an integer.
 */
module Sliders {

  /** One slider: inclusive bounds, step between positions and initial value. */
  datatype Slider = Slider(lo: int, hi: int, step: int, default: int)
  {
    /** A position the slider can stand at: within bounds, a whole number of steps above the minimum. */
    predicate Admits(v: int)
    {
      step > 0 && lo <= v <= hi && (v - lo) % step == 0
    }

    /** The slider can be built: positive step, non-empty range, default on one of its positions. */
    predicate WellFormed()
    {
      step > 0 && lo <= hi && Admits(default)
    }
  }

  const WasteTreated := Slider(80, 200, 5, 90)                        // ton/year
  const ValorizationRate := Slider(70, 100, 1, 90)                    // hundredths
  const EnergyGenerated := Slider(15000, 50000, 1000, 20000)          // kWh/year
  const Biofertilizer := Slider(30, 80, 1, 35)                        // ton/year
  const RecycledMaterials := Slider(10, 50, 1, 30)                    // hundredths
  const EnergyPrice := Slider(100, 300, 10, 150)                      // CLP/kWh
  const BiofertilizerPrice := Slider(100000, 500000, 10000, 200000)   // CLP/ton

  /** The current value of every slider. */
  datatype Params = Params(
    wasteTreated: int,
    valorizationRate: int,
    energyGenerated: int,
    biofertilizer: int,
    recycledMaterials: int,
    energyPrice: int,
    biofertilizerPrice: int)

  /**
   * Every field is a position its slider admits. Since each coarse slider's
   * minimum is itself a whole number of steps, its admitted positions are
   * exactly multiples of its step.
   */
  predicate InRange(p: Params): (r: bool)
    ensures r ==> p.wasteTreated % 5 == 0 && p.energyGenerated % 1000 == 0
    ensures r ==> p.energyPrice % 10 == 0 && p.biofertilizerPrice % 10000 == 0
  {
    && WasteTreated.Admits(p.wasteTreated)
    && ValorizationRate.Admits(p.valorizationRate)
    && EnergyGenerated.Admits(p.energyGenerated)
    && Biofertilizer.Admits(p.biofertilizer)
    && RecycledMaterials.Admits(p.recycledMaterials)
    && EnergyPrice.Admits(p.energyPrice)
    && BiofertilizerPrice.Admits(p.biofertilizerPrice)
  }

  /** The parameter set a session starts with: every slider at its default. */
  function Defaults(): (p: Params)
    ensures InRange(p)
  {
    Params(WasteTreated.default, ValorizationRate.default, EnergyGenerated.default,
           Biofertilizer.default, RecycledMaterials.default, EnergyPrice.default,
           BiofertilizerPrice.default)
  }

  /** Each of the seven sliders can be constructed with the bounds, step and default it is given. */
  lemma SlidersWellFormed()
    ensures WasteTreated.WellFormed() && ValorizationRate.WellFormed()
    ensures EnergyGenerated.WellFormed() && Biofertilizer.WellFormed()
    ensures RecycledMaterials.WellFormed() && EnergyPrice.WellFormed()
    ensures BiofertilizerPrice.WellFormed()
  {
  }

  /** The lowest position of every slider is an admitted parameter set, and so is the highest. */
  lemma ExtremesInRange()
    ensures InRange(Params(80, 70, 15000, 30, 10, 100, 100000))
    ensures InRange(Params(200, 100, 50000, 80, 50, 300, 500000))
  {
  }
}
