/** No figure of an estimate is negative when none of its inputs is: hours, line costs, labour,
    materials, markup, price, project total and duration. */
module Bounds {
  import opened Wrappers
  import opened Sums
  import opened CalculatorModel
  import opened Pricing
  import opened Estimation

  /** A stage with no negative coat count and no negative custom productivity. */
  predicate NonNegativeStage(stage: PaintingStage) {
    stage.coats >= 0 && stage.customProductivityHour >= 0.0 && stage.customProductivityDay >= 0.0
  }

  /** Labour inputs with no negative wage, hours, burden, crew cost or ratio (absent ones read as
      the calculation reads them). */
  predicate NonNegativeLabor(labor: LaborData) {
    && labor.dailyWage >= 0.0 && labor.workingHours >= 0.0 && labor.laborBurden >= 0.0
    && labor.painterDaily.GetOr(0.0) >= 0.0 && labor.helperDaily.GetOr(0.0) >= 0.0
    && labor.foremanDaily.GetOr(0.0) >= 0.0 && labor.adminDaily.GetOr(0.0) >= 0.0
    && labor.transportDaily.GetOr(0.0) >= 0.0
    && labor.rHelper.GetOr(0.3) >= 0.0 && labor.rForeman.GetOr(0.15) >= 0.0
  }

  predicate NonNegativeInputs(labor: LaborData, material: MaterialData, project: ProjectData,
                              business: BusinessData)
  {
    && NonNegativeLabor(labor)
    && material.pricePerSqm >= 0.0 && material.wastePercentage >= 0.0
    && project.area >= 0.0 && (forall stage :: stage in project.stages ==> NonNegativeStage(stage))
    && business.overhead >= 0.0 && business.profitMargin >= 0.0
  }

  /** Every money and time figure of a result, the stage lines and total hours aside. */
  predicate NonNegativeFigures(c: CostResult) {
    && c.laborCostPerSqm >= 0.0 && c.materialCostPerSqm >= 0.0 && c.totalCostPerSqm >= 0.0
    && c.suggestedPricePerSqm >= 0.0 && c.totalProjectCost >= 0.0
    && c.breakdown.basicLabor >= 0.0 && c.breakdown.laborBurden >= 0.0 && c.breakdown.materials >= 0.0
    && c.breakdown.overhead >= 0.0 && c.breakdown.profit >= 0.0
    && (c.dailyProductivity.Some? ==> c.dailyProductivity.value >= 0.0)
    && (c.daysRequired.Some? ==> c.daysRequired.value >= 0.0)
  }

  lemma ProductNonNegative(a: real, b: real)
    requires a >= 0.0 && b >= 0.0
    ensures a * b >= 0.0
  {
  }

  /** A factor whose product with a positive number is non-negative is itself non-negative. */
  lemma FactorNonNegative(r: real, h: real)
    requires h > 0.0 && r * h >= 0.0
    ensures r >= 0.0
  {
  }

  /** The hourly rate is never negative: the crew day is positive, and so is a non-zero working day. */
  lemma HourlyRateNonNegative(labor: LaborData)
    requires NonNegativeLabor(labor)
    ensures HourlyRate(labor).Some? ==> HourlyRate(labor).value >= 0.0
  {
    if labor.useCompositeCrew {
      var h, r := CrewHours(labor), CrewHourlyRate(labor);
      assert r * h >= 0.0;
      FactorNonNegative(r, h);
    } else if labor.workingHours != 0.0 {
      var r := HourlyRate(labor).value;
      assert r * labor.workingHours == labor.dailyWage;
      FactorNonNegative(r, labor.workingHours);
    }
  }

  /** A stage never takes negative hours: a custom rate that applies is positive, and by the
      standards a non-negative number of coats takes a non-negative multiple of positive hours. */
  lemma StageHoursNonNegative(stage: PaintingStage, labor: LaborData, surface: SurfaceType, env: WorkEnvironment)
    requires NonNegativeStage(stage) && labor.workingHours >= 0.0
    ensures StageHours(stage, labor, surface, env) >= 0.0
  {
    var coats := stage.coats as real;
    match Basis(stage, labor)
    case CustomHourly(p) =>
      ProductNonNegative(1.0 / p, coats);
    case CustomDaily(p) =>
      ProductNonNegative(labor.workingHours / p, coats);
    case ScientificStandards =>
      UnitHoursAtLeastTableRate(stage.name, surface, env);
      ProductNonNegative(CoatsWorth(stage.coats, stage.name == Topcoat), UnitHours(stage.name, surface, env));
  }

  /** Every stage's share of the total hours is non-negative. */
  lemma HoursOfNonNegative(stages: seq<PaintingStage>, labor: LaborData, surface: SurfaceType, env: WorkEnvironment)
    requires forall stage :: stage in stages ==> NonNegativeStage(stage)
    requires labor.workingHours >= 0.0
    ensures forall stage :: stage in stages ==> HoursOf(labor, surface, env)(stage) >= 0.0
  {
    forall stage | stage in stages
      ensures HoursOf(labor, surface, env)(stage) >= 0.0
    {
      StageHoursNonNegative(stage, labor, surface, env);
    }
  }

  /** Lines of stages with non-negative hours, at a non-negative rate, have non-negative hours and costs. */
  lemma {:induction false} LinesNonNegative(stages: seq<PaintingStage>, hours: PaintingStage -> real,
                                            labor: LaborData, rate: real)
    requires rate >= 0.0
    requires forall stage :: stage in stages ==> hours(stage) >= 0.0
    ensures forall line :: line in Lines(stages, hours, labor, rate) ==> line.hours >= 0.0 && line.cost >= 0.0
  {
    if |stages| > 0 {
      var init, last := stages[..|stages| - 1], stages[|stages| - 1];
      assert forall stage :: stage in init ==> stage in stages;
      LinesNonNegative(init, hours, labor, rate);
      ProductNonNegative(hours(last), rate);
    }
  }

  /** The aggregation keeps non-negative inputs non-negative. */
  lemma AggregateNonNegative(stageBreakdown: seq<StageResult>, totalHours: real, hourlyRate: real, labor: LaborData,
                             materialCostPerSqm: real, area: real, business: BusinessData)
    requires totalHours >= 0.0 && hourlyRate >= 0.0 && labor.laborBurden >= 0.0 && labor.workingHours >= 0.0
    requires materialCostPerSqm >= 0.0 && area >= 0.0 && business.overhead >= 0.0 && business.profitMargin >= 0.0
    ensures NonNegativeFigures(Aggregate(stageBreakdown, totalHours, hourlyRate, labor, materialCostPerSqm, area, business))
  {
    var c := Aggregate(stageBreakdown, totalHours, hourlyRate, labor, materialCostPerSqm, area, business);
    AggregateCosts(stageBreakdown, totalHours, hourlyRate, labor, materialCostPerSqm, area, business);
    AggregateMarkup(stageBreakdown, totalHours, hourlyRate, labor, materialCostPerSqm, area, business);
    AggregateDuration(stageBreakdown, totalHours, hourlyRate, labor, materialCostPerSqm, area, business);
    ProductNonNegative(totalHours, hourlyRate);
    ProductNonNegative(c.breakdown.basicLabor, labor.laborBurden / 100.0);
    ProductNonNegative(c.totalCostPerSqm, business.overhead / 100.0);
    ProductNonNegative(c.totalCostPerSqm + c.breakdown.overhead, business.profitMargin / 100.0);
    ProductNonNegative(c.suggestedPricePerSqm, area);
    if totalHours != 0.0 && labor.workingHours != 0.0 {
      ProductNonNegative(area, totalHours);
    }
  }

  /** With no negative input, no figure of the estimate is negative: the total hours, every line's
      hours and cost, labour, materials, cost, markup, price, project total and duration. */
  lemma EstimateNonNegative(labor: LaborData, material: MaterialData, project: ProjectData, business: BusinessData)
    requires labor.useCompositeCrew || labor.workingHours != 0.0
    requires NonNegativeInputs(labor, material, project, business)
    ensures var c := Estimate(labor, material, project, business).value;
      && c.totalHours >= 0.0
      && (forall line :: line in c.stageBreakdown ==> line.hours >= 0.0 && line.cost >= 0.0)
      && NonNegativeFigures(c)
  {
    var surface, env, stages := project.surfaceType, project.workEnvironment, project.stages;
    var rate := HourlyRate(labor).value;
    HourlyRateNonNegative(labor);
    HoursOfNonNegative(stages, labor, surface, env);
    SumRealNonNegative(stages, HoursOf(labor, surface, env));
    LinesNonNegative(stages, HoursOf(labor, surface, env), labor, rate);
    SumRealNonNegative(stages, CoatsOf);
    var coats := TotalCoats(stages);
    if material.includeMaterials {
      ProductNonNegative(material.pricePerSqm, 1.0 + material.wastePercentage / 100.0);
      ProductNonNegative(material.pricePerSqm * (1.0 + material.wastePercentage / 100.0), coats);
    }
    AggregateNonNegative(Breakdown(stages, labor, surface, env, rate), TotalHours(stages, labor, surface, env),
                         rate, labor, MaterialCost(material, coats), project.area, business);
  }
}
