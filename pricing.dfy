/** Hourly labour rate and material price per m², as the calculator derives them from its inputs. */
module Pricing {
  import opened Wrappers
  import opened CalculatorModel
  import Engine

  /** Working hours of a crew day; an unset (zero) value counts as 8 hours. */
  function CrewHours(labor: LaborData): (h: real)
    ensures h != 0.0
    ensures labor.workingHours != 0.0 ==> h == labor.workingHours
  {
    if labor.workingHours != 0.0 then labor.workingHours else 8.0
  }

  /** What one crew day costs: a painter, the helper and foreman shares given by the ratios
      (0.3 and 0.15 when unset), site administration and transport. Absent costs are 0. */
  function CrewDailyCost(labor: LaborData): real
  {
    labor.painterDaily.GetOr(0.0)
    + labor.rHelper.GetOr(0.3) * labor.helperDaily.GetOr(0.0)
    + labor.rForeman.GetOr(0.15) * labor.foremanDaily.GetOr(0.0)
    + labor.adminDaily.GetOr(0.0)
    + labor.transportDaily.GetOr(0.0)
  }

  /** The composite crew's cost per painter hour: each daily cost spread over the crew hours. */
  function CrewHourlyRate(labor: LaborData): (r: real)
    ensures r * CrewHours(labor) == CrewDailyCost(labor)
  {
    var h := CrewHours(labor);
    var painter := labor.painterDaily.GetOr(0.0) / h;
    var helper := labor.helperDaily.GetOr(0.0) / h;
    var foreman := labor.foremanDaily.GetOr(0.0) / h;
    var admin := labor.adminDaily.GetOr(0.0) / h;
    var transport := labor.transportDaily.GetOr(0.0) / h;
    var rH := labor.rHelper.GetOr(0.3);
    var rF := labor.rForeman.GetOr(0.15);
    SpreadOverHours(labor.painterDaily.GetOr(0.0), labor.helperDaily.GetOr(0.0), labor.foremanDaily.GetOr(0.0),
                    labor.adminDaily.GetOr(0.0), labor.transportDaily.GetOr(0.0), rH, rF, h);
    painter + rH * helper + rF * foreman + admin + transport
  }

  /** Dividing every daily cost by the crew hours and adding up gives the day's cost per hour. */
  lemma SpreadOverHours(painter: real, helper: real, foreman: real, admin: real, transport: real,
                        rH: real, rF: real, h: real)
    requires h != 0.0
    ensures (painter / h + rH * (helper / h) + rF * (foreman / h) + admin / h + transport / h) * h
            == painter + rH * helper + rF * foreman + admin + transport
  {
    assert rH * (helper / h) * h == rH * helper;
    assert rF * (foreman / h) * h == rF * foreman;
  }

  /** A ratio that is set, even to 0, replaces its default: with both ratios set to 0 only the
      painter, administration and transport are paid for. */
  lemma ZeroRatiosAreKept(labor: LaborData)
    requires labor.rHelper == Some(0.0) && labor.rForeman == Some(0.0)
    ensures CrewHourlyRate(labor) * CrewHours(labor)
            == labor.painterDaily.GetOr(0.0) + labor.adminDaily.GetOr(0.0) + labor.transportDaily.GetOr(0.0)
  {
  }

  /** The hourly rate the estimate uses: the composite crew rate, or the daily wage over the
      working hours. The latter divides unguarded; with zero working hours there is no rate. */
  function HourlyRate(labor: LaborData): (r: Option<real>)
    ensures r.Some? <==> labor.useCompositeCrew || labor.workingHours != 0.0
    ensures labor.useCompositeCrew ==> r == Some(CrewHourlyRate(labor))
    ensures !labor.useCompositeCrew && r.Some? ==> r.value * labor.workingHours == labor.dailyWage
  {
    if labor.useCompositeCrew then Some(CrewHourlyRate(labor))
    else if labor.workingHours != 0.0 then Some(labor.dailyWage / labor.workingHours)
    else None
  }

  /** The default crew (220/160/350/100/80 per day, 8 hours, ratios 0.30 and 0.15) costs
      62.5625 per hour; leaving the ratios unset gives the same rate. */
  lemma DefaultCrewRate(labor: LaborData)
    requires labor.painterDaily == Some(220.0) && labor.helperDaily == Some(160.0)
    requires labor.foremanDaily == Some(350.0) && labor.adminDaily == Some(100.0)
    requires labor.transportDaily == Some(80.0)
    requires labor.workingHours == 8.0 || labor.workingHours == 0.0
    requires labor.rHelper in {None, Some(0.3)} && labor.rForeman in {None, Some(0.15)}
    ensures CrewHourlyRate(labor) == 62.5625
  {
    assert CrewDailyCost(labor) == 500.5;
  }

  /** Share of paint that reaches the surface for each application method; roller when unset. */
  function LossFactor(applicationMethod: Option<ApplicationMethod>): (lf: real)
    ensures 0.0 < lf <= 1.0
    ensures Engine.EffectiveLossFactor(lf) == lf
  {
    match applicationMethod.GetOr(Roller)
    case Airless => 0.9
    case Roller => 0.85
    case Brush => 0.82
  }

  const LitersPerGallon: real := 3.785

  /** An optional number that JavaScript treats as true: present and non-zero. */
  predicate Truthy(x: Option<real>) {
    x.Some? && x.value != 0.0
  }

  /** The engineering branch runs when it is switched on and solids, film thickness and gallon
      price are all set. */
  predicate EngineeringApplies(m: MaterialData) {
    m.useEngineeringMaterials && Truthy(m.vs) && Truthy(m.dft) && m.gallonPrice != 0.0
  }

  predicate GallonApplies(m: MaterialData) {
    m.useGallonCalculator && m.gallonPrice != 0.0 && m.coveragePerGallon != 0.0
  }

  /** Recomputes the material price per m² per coat, as intended: from coating physics in
      engineering mode, from gallon price and coverage in gallon mode, and otherwise leaves the
      entered price. `CalculatePricePerSqmAsWritten` is the code as it stands, whose engineering
      branch throws instead. */
  function CalculatePricePerSqm(m: MaterialData): (m': MaterialData)
    ensures m' == m.(pricePerSqm := m'.pricePerSqm)
    ensures EngineeringApplies(m) && m.vs.value > 0.0 && m.dft.value > 0.0 ==>
      m'.pricePerSqm * (LitersPerGallon * 10.0 * m.vs.value * LossFactor(m.applicationMethod))
      == m.gallonPrice * m.dft.value
    ensures EngineeringApplies(m) && (m.vs.value < 0.0 || m.dft.value < 0.0) ==> m'.pricePerSqm == 0.0
    ensures !EngineeringApplies(m) && GallonApplies(m) ==>
      m'.pricePerSqm * m.coveragePerGallon == m.gallonPrice
    ensures !EngineeringApplies(m) && !GallonApplies(m) ==> m' == m
  {
    if EngineeringApplies(m) then
      var tsr := Engine.TheoreticalSpreadRate(m.vs.value, m.dft.value);
      var psr := Engine.PracticalSpreadRate(tsr, LossFactor(m.applicationMethod));
      var pricePerLiter := m.gallonPrice / LitersPerGallon;
      var liters := Engine.LitersPerSqmPerCoat(psr);
      EngineeringPriceClosedForm(m);
      m.(pricePerSqm := pricePerLiter * liters)
    else if GallonApplies(m) then
      m.(pricePerSqm := m.gallonPrice / m.coveragePerGallon)
    else
      m
  }

  /** The engineering price per coat is the gallon price times the film thickness over
      3.785 · 10 · solids · loss factor. */
  lemma EngineeringPriceClosedForm(m: MaterialData)
    requires EngineeringApplies(m)
    ensures m.vs.value > 0.0 && m.dft.value > 0.0 ==>
      var lf := LossFactor(m.applicationMethod);
      var liters := Engine.LitersPerSqmPerCoat(
        Engine.PracticalSpreadRate(Engine.TheoreticalSpreadRate(m.vs.value, m.dft.value), lf));
      (m.gallonPrice / LitersPerGallon * liters) * (LitersPerGallon * 10.0 * m.vs.value * lf)
      == m.gallonPrice * m.dft.value
  {
    var vs, dft, lf := m.vs.value, m.dft.value, LossFactor(m.applicationMethod);
    if vs <= 0.0 || dft <= 0.0 {
      return;
    }
    Engine.SpreadRateRoundTrip(vs, dft, lf);
    var liters := Engine.LitersPerSqmPerCoat(
      Engine.PracticalSpreadRate(Engine.TheoreticalSpreadRate(vs, dft), lf));
    assert liters * (10.0 * vs * lf) == dft;
    calc {
      (m.gallonPrice / LitersPerGallon * liters) * (LitersPerGallon * 10.0 * vs * lf);
      m.gallonPrice / LitersPerGallon * LitersPerGallon * (liters * (10.0 * vs * lf));
      m.gallonPrice * dft;
    }
  }

  /** The price recalculation as it is written. In the engineering branch the local constant for
      the litres per m² bears the name of the engine helper and shadows it, so the call reads that
      constant before it is initialised and throws: `None`, and no price is stored. The other
      branches are those of the intended recalculation. */
  function CalculatePricePerSqmAsWritten(m: MaterialData): (r: Option<MaterialData>)
    ensures r.None? <==> EngineeringApplies(m)
    ensures r.Some? && GallonApplies(m) ==>
      r.value == m.(pricePerSqm := r.value.pricePerSqm) && r.value.pricePerSqm * m.coveragePerGallon == m.gallonPrice
    ensures r.Some? && !GallonApplies(m) ==> r.value == m
  {
    if EngineeringApplies(m) then None
    else if GallonApplies(m) then Some(m.(pricePerSqm := m.gallonPrice / m.coveragePerGallon))
    else Some(m)
  }

  /** The code as written and the intended recalculation agree outside the engineering branch;
      inside it the code as written never stores a price. */
  lemma AsWrittenDiffersOnlyInEngineering(m: MaterialData)
    ensures !EngineeringApplies(m) ==> CalculatePricePerSqmAsWritten(m) == Some(CalculatePricePerSqm(m))
    ensures EngineeringApplies(m) ==> CalculatePricePerSqmAsWritten(m).None?
  {
  }

  /** At the engineering example's inputs the code as written throws, where the intended
      recalculation prices a coat at about 190.4 per m². */
  lemma EngineeringBranchThrowsExample(m: MaterialData)
    requires m.useEngineeringMaterials && m.vs == Some(0.4) && m.dft == Some(35.0)
    requires m.applicationMethod in {None, Some(Roller)} && m.gallonPrice == 70.0
    ensures CalculatePricePerSqmAsWritten(m).None?
    ensures 190.3 < CalculatePricePerSqm(m).pricePerSqm < 190.5
  {
    EngineeringPriceExample(m);
  }

  /** The material price the estimate sees after the recalculation effect, as intended: the price
      is only recomputed while the gallon calculator is switched on, whatever the engineering
      switch says. */
  function PriceAfterMaterialChange(m: MaterialData): (m': MaterialData)
    ensures !m.useGallonCalculator ==> m' == m
    ensures m.useGallonCalculator ==> m' == CalculatePricePerSqm(m)
  {
    if m.useGallonCalculator then CalculatePricePerSqm(m) else m
  }

  /** The effect as written: it throws, leaving the material record as it was, exactly when the
      gallon calculator is on and the engineering branch applies; otherwise it does what the
      intended effect does. */
  function PriceAfterMaterialChangeAsWritten(m: MaterialData): (r: Option<MaterialData>)
    ensures r.None? <==> m.useGallonCalculator && EngineeringApplies(m)
    ensures r.Some? ==> r.value == PriceAfterMaterialChange(m)
  {
    AsWrittenDiffersOnlyInEngineering(m);
    if m.useGallonCalculator then CalculatePricePerSqmAsWritten(m) else Some(m)
  }

  /** The engineering example: 40 % solids, 35 microns, roller, 70 per gallon gives about
      190.4 per m² per coat. */
  lemma EngineeringPriceExample(m: MaterialData)
    requires m.useEngineeringMaterials && m.vs == Some(0.4) && m.dft == Some(35.0)
    requires m.applicationMethod in {None, Some(Roller)} && m.gallonPrice == 70.0
    ensures 190.3 < CalculatePricePerSqm(m).pricePerSqm < 190.5
  {
    var p := CalculatePricePerSqm(m).pricePerSqm;
    assert p * 12.869 == 2450.0;
  }
}
