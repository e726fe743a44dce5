/** One estimation pass: hours per stage, labour, materials, overhead and profit, duration. */
module Estimation {
  import opened Wrappers
  import opened Sums
  import opened CalculatorModel
  import opened Pricing

  /** The productivity figure a stage is timed by: a custom rate of the selected mode when it is
      set (non-zero), otherwise the scientific standards. */
  function Basis(stage: PaintingStage, labor: LaborData): (b: ProductivityBasis)
    ensures b.CustomHourly? <==> labor.productivityMode == Hourly && stage.customProductivityHour != 0.0
    ensures b.CustomDaily? <==> labor.productivityMode == Daily && stage.customProductivityDay != 0.0
    ensures b.CustomHourly? ==> b.sqmPerHour == stage.customProductivityHour
    ensures b.CustomDaily? ==> b.sqmPerDay == stage.customProductivityDay
  {
    if labor.productivityMode == Hourly && stage.customProductivityHour != 0.0 then
      CustomHourly(stage.customProductivityHour)
    else if labor.productivityMode == Daily && stage.customProductivityDay != 0.0 then
      CustomDaily(stage.customProductivityDay)
    else
      ScientificStandards
  }

  /** Hours per m² of one standard coat, with the surface and environment factors applied. */
  function UnitHours(name: StageName, surface: SurfaceType, env: WorkEnvironment): real
  {
    ProductionRate(name, surface) * SurfaceFactor(surface) * EnvironmentFactor(env)
  }

  /** Neither factor ever shortens the work: a coat takes at least the table's hours. */
  lemma UnitHoursAtLeastTableRate(name: StageName, surface: SurfaceType, env: WorkEnvironment)
    ensures UnitHours(name, surface, env) >= ProductionRate(name, surface) > 0.0
  {
    var base, sf := ProductionRate(name, surface), SurfaceFactor(surface);
    assert base * sf >= base;
    assert base * sf * EnvironmentFactor(env) >= base * sf;
  }

  /** Ceilings are slowed twice, by their own row of the table and by their surface factor: a coat
      on a ceiling takes more than 1.25 times the same coat on a wall. */
  lemma CeilingsScaledTwice(name: StageName, env: WorkEnvironment)
    ensures UnitHours(name, Ceilings, env) > 1.25 * UnitHours(name, Walls, env)
  {
    RowsOrderedBySurface(name);
    var wall, ceiling, ef := ProductionRate(name, Walls), ProductionRate(name, Ceilings), EnvironmentFactor(env);
    assert (ceiling - wall) * 1.25 * ef > 0.0;
  }

  /** How many coats' worth of standard time `coats` coats take: each coat counts once, except
      that on a repaint (the topcoat) every coat after the first counts 80 %. */
  function CoatsWorth(coats: int, repaint: bool): real
  {
    if repaint && coats > 1 then 1.0 + 0.8 * (coats - 1) as real else coats as real
  }

  /** Hours per m² by the scientific standards: the stage's coats' worth of unit hours. */
  function ScientificHours(name: StageName, coats: int, surface: SurfaceType, env: WorkEnvironment): real
  {
    CoatsWorth(coats, name == Topcoat) * UnitHours(name, surface, env)
  }

  /** The factors can be applied per coat or to the whole stage alike. */
  lemma ScaledHours(baseRate: real, coats: real, sf: real, ef: real)
    ensures baseRate * coats * sf * ef == coats * (baseRate * sf * ef)
  {
  }

  /** The same for a repaint whose `extra` coats after the first take 80 % of the time. */
  lemma ScaledRepaintHours(baseRate: real, extra: real, sf: real, ef: real)
    ensures (baseRate + extra * (baseRate * 0.8)) * sf * ef == (1.0 + 0.8 * extra) * (baseRate * sf * ef)
  {
    assert baseRate + extra * (baseRate * 0.8) == (1.0 + 0.8 * extra) * baseRate;
  }

  /** Hours per m² of one stage: its coats at the custom productivity, or by the standards. */
  function StageHours(stage: PaintingStage, labor: LaborData, surface: SurfaceType, env: WorkEnvironment): real
  {
    match Basis(stage, labor)
    case CustomHourly(p) => (1.0 / p) * stage.coats as real
    case CustomDaily(p) => (labor.workingHours / p) * stage.coats as real
    case ScientificStandards => ScientificHours(stage.name, stage.coats, surface, env)
  }

  /** By the standards, one more coat of any stage but the topcoat costs one more unit of hours. */
  lemma AdditionalCoatHours(name: StageName, coats: nat, surface: SurfaceType, env: WorkEnvironment)
    requires name != Topcoat
    ensures ScientificHours(name, coats + 1, surface, env)
            == ScientificHours(name, coats, surface, env) + UnitHours(name, surface, env)
  {
    Distribute(coats as real, 1.0, UnitHours(name, surface, env));
  }

  /** By the standards, every topcoat coat after the first costs 80 % of a unit of hours, so the
      second coat is quicker than the first and later ones take the same as the second. */
  lemma TopcoatRepaintDiscount(coats: nat, surface: SurfaceType, env: WorkEnvironment)
    requires coats >= 1
    ensures ScientificHours(Topcoat, 1, surface, env) == UnitHours(Topcoat, surface, env)
    ensures ScientificHours(Topcoat, coats + 1, surface, env)
            == ScientificHours(Topcoat, coats, surface, env) + 0.8 * UnitHours(Topcoat, surface, env)
    ensures ScientificHours(Topcoat, coats + 1, surface, env) - ScientificHours(Topcoat, coats, surface, env)
            < UnitHours(Topcoat, surface, env)
  {
    var unit := UnitHours(Topcoat, surface, env);
    UnitHoursAtLeastTableRate(Topcoat, surface, env);
    assert CoatsWorth(coats + 1, true) == CoatsWorth(coats, true) + 0.8;
    Distribute(CoatsWorth(coats, true), 0.8, unit);
  }

  lemma Distribute(a: real, b: real, c: real)
    ensures (a + b) * c == a * c + b * c
  {
  }

  /** A stage timed by a custom productivity takes the same hours on every surface and in every
      environment: neither factor is applied. */
  lemma CustomRatesIgnoreConditions(stage: PaintingStage, labor: LaborData, surface: SurfaceType,
                                    env: WorkEnvironment, surface': SurfaceType, env': WorkEnvironment)
    requires !Basis(stage, labor).ScientificStandards?
    ensures StageHours(stage, labor, surface, env) == StageHours(stage, labor, surface', env')
  {
  }

  /** At a custom productivity of p m² per hour, c coats take c / p hours per m²; at p m² per
      working day of H hours they take H · c / p; otherwise the standards apply. */
  lemma StageHoursByBasis(stage: PaintingStage, labor: LaborData, surface: SurfaceType, env: WorkEnvironment)
    ensures var h := StageHours(stage, labor, surface, env);
      && (Basis(stage, labor).CustomHourly? ==> h * stage.customProductivityHour == stage.coats as real)
      && (Basis(stage, labor).CustomDaily? ==>
           h * stage.customProductivityDay == labor.workingHours * stage.coats as real)
      && (Basis(stage, labor).ScientificStandards? ==>
           h == ScientificHours(stage.name, stage.coats, surface, env))
  {
  }

  /** The hours of each stage, as if it were enabled. */
  function StageHoursOf(labor: LaborData, surface: SurfaceType, env: WorkEnvironment): PaintingStage -> real
  {
    (stage: PaintingStage) => StageHours(stage, labor, surface, env)
  }

  /** `hours` for an enabled stage, nothing for a disabled one. */
  function Masked(hours: PaintingStage -> real): PaintingStage -> real
  {
    (stage: PaintingStage) => if stage.enabled then hours(stage) else 0.0
  }

  /** A stage's share of the total hours: nothing when it is disabled. */
  function HoursOf(labor: LaborData, surface: SurfaceType, env: WorkEnvironment): PaintingStage -> real
  {
    Masked(StageHoursOf(labor, surface, env))
  }

  /** A stage's share of the coats paid for in materials: nothing when it is disabled. */
  function CoatsOf(stage: PaintingStage): real
  {
    if stage.enabled then stage.coats as real else 0.0
  }

  /** A stage's coats, whether or not it is enabled. */
  function StageCoats(stage: PaintingStage): real
  {
    stage.coats as real
  }

  function TotalHours(stages: seq<PaintingStage>, labor: LaborData, surface: SurfaceType, env: WorkEnvironment): real
  {
    SumReal(stages, HoursOf(labor, surface, env))
  }

  function TotalCoats(stages: seq<PaintingStage>): real
  {
    SumReal(stages, CoatsOf)
  }

  /** The enabled stages, in list order. */
  function EnabledStages(stages: seq<PaintingStage>): (r: seq<PaintingStage>)
    ensures |r| <= |stages|
    ensures forall x :: x in r <==> x in stages && x.enabled
  {
    if |stages| == 0 then []
    else
      var last := stages[|stages| - 1];
      EnabledStages(stages[..|stages| - 1]) + (if last.enabled then [last] else [])
  }

  /** The filter keeps every enabled stage as often as the list holds it, and no disabled one. */
  lemma {:induction false} EnabledStagesCount(stages: seq<PaintingStage>)
    ensures forall x :: multiset(EnabledStages(stages))[x] == if x.enabled then multiset(stages)[x] else 0
  {
    if |stages| > 0 {
      var init, last := stages[..|stages| - 1], stages[|stages| - 1];
      assert stages == init + [last];
      EnabledStagesCount(init);
    }
  }

  /** Filtering a list piece by piece keeps the pieces in order. */
  lemma {:induction false} EnabledStagesAppend(s: seq<PaintingStage>, t: seq<PaintingStage>)
    ensures EnabledStages(s + t) == EnabledStages(s) + EnabledStages(t)
  {
    if |t| == 0 {
      assert s + t == s;
    } else {
      var u, init, last := s + t, t[..|t| - 1], t[|t| - 1];
      var tail := if last.enabled then [last] else [];
      assert u[..|u| - 1] == s + init && u[|u| - 1] == last;
      assert EnabledStages(u) == EnabledStages(s + init) + tail;
      EnabledStagesAppend(s, init);
      assert EnabledStages(t) == EnabledStages(init) + tail;
    }
  }

  /** The result line for one enabled stage that takes `hours` per m². */
  function LineOf(stage: PaintingStage, hours: real, labor: LaborData, rate: real): StageResult
  {
    StageResult(stage.description, hours, hours * rate, stage.coats, Basis(stage, labor))
  }

  /** One result line per enabled stage, in list order, each timed by `hours`. */
  function Lines(stages: seq<PaintingStage>, hours: PaintingStage -> real, labor: LaborData, rate: real)
    : seq<StageResult>
  {
    if |stages| == 0 then []
    else
      var last := stages[|stages| - 1];
      Lines(stages[..|stages| - 1], hours, labor, rate)
      + (if last.enabled then [LineOf(last, hours(last), labor, rate)] else [])
  }

  /** The per-stage breakdown of an estimate. */
  function Breakdown(stages: seq<PaintingStage>, labor: LaborData, surface: SurfaceType,
                     env: WorkEnvironment, rate: real): seq<StageResult>
  {
    Lines(stages, HoursOf(labor, surface, env), labor, rate)
  }

  function ResultHours(line: StageResult): real { line.hours }

  function ResultCost(line: StageResult): real { line.cost }

  /** Material cost per m²: the price per coat, plus waste, for every coat applied; nothing when
      materials are excluded. */
  function MaterialCost(material: MaterialData, totalCoats: real): (r: real)
    ensures !material.includeMaterials ==> r == 0.0
  {
    if material.includeMaterials then
      var wasteFactor := 1.0 + material.wastePercentage / 100.0;
      material.pricePerSqm * wasteFactor * totalCoats
    else 0.0
  }

  /** Everything after the walk over the stages: labour with its burden, materials, overhead and
      profit compounded on the total, the project cost and the duration. */
  function Aggregate(stageBreakdown: seq<StageResult>, totalHours: real, hourlyRate: real, labor: LaborData,
                     materialCostPerSqm: real, area: real, business: BusinessData): (c: CostResult)
    ensures c.stageBreakdown == stageBreakdown && c.totalHours == totalHours
  {
    var basicLaborCost := totalHours * hourlyRate;
    var laborBurdenCost := basicLaborCost * (labor.laborBurden / 100.0);
    var totalLaborCostPerSqm := basicLaborCost + laborBurdenCost;
    var totalCostPerSqm := totalLaborCostPerSqm + materialCostPerSqm;
    var overheadCost := totalCostPerSqm * (business.overhead / 100.0);
    var costWithOverhead := totalCostPerSqm + overheadCost;
    var profitAmount := costWithOverhead * (business.profitMargin / 100.0);
    var suggestedPricePerSqm := costWithOverhead + profitAmount;
    // workingHours / totalHours is infinite or NaN when totalHours is zero ...
    var dailyProductivity := if totalHours != 0.0 then Some(labor.workingHours / totalHours) else None;
    // ... and area / dailyProductivity is then 0 (area over an infinity) or NaN (0 / 0), and
    // infinite or NaN when the working hours, and so the daily productivity, are zero.
    var daysRequired :=
      if labor.workingHours == 0.0 then None
      else if totalHours == 0.0 then Some(0.0)
      else Some(area / (labor.workingHours / totalHours));
    var totalProjectCost := suggestedPricePerSqm * area;
    CostResult(
      stageBreakdown, totalHours, totalLaborCostPerSqm, materialCostPerSqm, totalCostPerSqm,
      suggestedPricePerSqm, totalProjectCost, dailyProductivity, daysRequired,
      CostBreakdown(basicLaborCost, laborBurdenCost, materialCostPerSqm, overheadCost, profitAmount))
  }

  /** Labour is the total hours at the hourly rate plus the burden on it; the cost per m² adds the
      materials. */
  lemma AggregateCosts(stageBreakdown: seq<StageResult>, totalHours: real, hourlyRate: real, labor: LaborData,
                        materialCostPerSqm: real, area: real, business: BusinessData)
    ensures var c := Aggregate(stageBreakdown, totalHours, hourlyRate, labor, materialCostPerSqm, area, business);
      && c.breakdown.basicLabor == totalHours * hourlyRate
      && c.laborCostPerSqm == c.breakdown.basicLabor * (1.0 + labor.laborBurden / 100.0)
      && c.breakdown.laborBurden == c.laborCostPerSqm - c.breakdown.basicLabor
      && c.materialCostPerSqm == c.breakdown.materials == materialCostPerSqm
      && c.totalCostPerSqm == c.laborCostPerSqm + c.materialCostPerSqm
  {
  }

  /** Overhead and then profit are compounded on the cost per m², and the project cost is that
      price over the whole area. */
  lemma AggregateMarkup(stageBreakdown: seq<StageResult>, totalHours: real, hourlyRate: real, labor: LaborData,
                         materialCostPerSqm: real, area: real, business: BusinessData)
    ensures var c := Aggregate(stageBreakdown, totalHours, hourlyRate, labor, materialCostPerSqm, area, business);
      && c.suggestedPricePerSqm
         == c.totalCostPerSqm * (1.0 + business.overhead / 100.0) * (1.0 + business.profitMargin / 100.0)
      && c.breakdown.overhead + c.breakdown.profit == c.suggestedPricePerSqm - c.totalCostPerSqm
      && c.totalProjectCost == c.suggestedPricePerSqm * area
  {
  }

  /** The daily productivity is the working day over the hours per m², defined when there are
      hours; the duration is the area over it: the area times the hours per m² over the working
      day, nothing to do when no hours are needed, and undefined for a zero working day. */
  lemma AggregateDuration(stageBreakdown: seq<StageResult>, totalHours: real, hourlyRate: real, labor: LaborData,
                           materialCostPerSqm: real, area: real, business: BusinessData)
    ensures var c := Aggregate(stageBreakdown, totalHours, hourlyRate, labor, materialCostPerSqm, area, business);
      && (c.dailyProductivity.Some? <==> totalHours != 0.0)
      && (c.dailyProductivity.Some? ==> c.dailyProductivity.value * totalHours == labor.workingHours)
      && (c.daysRequired.Some? <==> labor.workingHours != 0.0)
      && (totalHours != 0.0 && labor.workingHours != 0.0 ==>
            c.daysRequired == Some(area * totalHours / labor.workingHours))
      && (totalHours == 0.0 && labor.workingHours != 0.0 ==> c.daysRequired == Some(0.0))
  {
    DaysFromProductivity(area, labor.workingHours, totalHours);
  }

  /** The estimate for one snapshot of the inputs. `None` when the simple hourly rate divides by
      zero working hours: the original's rate is then infinite or NaN, and so is every figure
      derived from it (line costs, labour, cost per m², overhead, profit, price, project total). */
  function Estimate(labor: LaborData, material: MaterialData, project: ProjectData,
                    business: BusinessData): (r: Option<CostResult>)
    ensures r.Some? <==> labor.useCompositeCrew || labor.workingHours != 0.0
  {
    match HourlyRate(labor)
    case None => None
    case Some(hourlyRate) =>
      var surface, env, stages := project.surfaceType, project.workEnvironment, project.stages;
      Some(Aggregate(Breakdown(stages, labor, surface, env, hourlyRate), TotalHours(stages, labor, surface, env),
                     hourlyRate, labor, MaterialCost(material, TotalCoats(stages)), project.area, business))
  }

  /** Whatever the hours of each stage, the lines' costs add up to the hours of all stages at the rate. */
  lemma LinesCostTotal(stages: seq<PaintingStage>, hours: PaintingStage -> real, labor: LaborData, rate: real,
                       total: real)
    requires total == SumReal(stages, Masked(hours))
    ensures SumReal(Lines(stages, Masked(hours), labor, rate), ResultCost) == total * rate
  {
    var b := Lines(stages, Masked(hours), labor, rate);
    LinesHours(stages, hours, labor, rate);
    LineCostIsHoursAtRate(stages, Masked(hours), labor, rate);
    CostsAtRate(b, rate, total);
  }

  /** Lines that each cost their hours at the rate cost, together, their total hours at the rate. */
  lemma CostsAtRate(b: seq<StageResult>, rate: real, total: real)
    requires forall line :: line in b ==> ResultCost(line) == ResultHours(line) * rate
    requires SumReal(b, ResultHours) == total
    ensures SumReal(b, ResultCost) == total * rate
  {
    SumRealScaleTo(b, ResultHours, ResultCost, rate, total);
  }

  /** The estimate's per-stage lines are the enabled stages, in order, each with its own hours and
      those hours at the hourly rate; their hours add up to the total hours. */
  lemma EstimateLines(labor: LaborData, material: MaterialData, project: ProjectData, business: BusinessData)
    requires labor.useCompositeCrew || labor.workingHours != 0.0
    ensures var c, rate := Estimate(labor, material, project, business).value, HourlyRate(labor).value;
      var surface, env, stages := project.surfaceType, project.workEnvironment, project.stages;
      && c.totalHours == TotalHours(stages, labor, surface, env)
      && SumReal(c.stageBreakdown, ResultHours) == c.totalHours
      && |c.stageBreakdown| == |EnabledStages(stages)|
      && forall k :: 0 <= k < |c.stageBreakdown| ==>
           var stage := EnabledStages(stages)[k];
           c.stageBreakdown[k] == LineOf(stage, StageHours(stage, labor, surface, env), labor, rate)
  {
    var rate := HourlyRate(labor).value;
    var surface, env, stages := project.surfaceType, project.workEnvironment, project.stages;
    LinesHours(stages, StageHoursOf(labor, surface, env), labor, rate);
    LinesFollowEnabledStages(stages, HoursOf(labor, surface, env), labor, rate);
  }

  /** The costs of the estimate's lines add up to its basic labour cost. */
  lemma EstimateLaborIsSumOfLines(labor: LaborData, material: MaterialData, project: ProjectData,
                                  business: BusinessData)
    requires labor.useCompositeCrew || labor.workingHours != 0.0
    ensures var c := Estimate(labor, material, project, business).value;
      SumReal(c.stageBreakdown, ResultCost) == c.breakdown.basicLabor
  {
    var rate := HourlyRate(labor).value;
    var surface, env, stages := project.surfaceType, project.workEnvironment, project.stages;
    BreakdownCost(stages, labor, surface, env, rate);
  }

  /** The costs of the per-stage lines add up to the total hours at the rate. */
  lemma BreakdownCost(stages: seq<PaintingStage>, labor: LaborData, surface: SurfaceType, env: WorkEnvironment,
                      rate: real)
    ensures SumReal(Breakdown(stages, labor, surface, env, rate), ResultCost)
            == TotalHours(stages, labor, surface, env) * rate
  {
    var h := StageHoursOf(labor, surface, env);
    MaskedForms(stages, labor, surface, env, rate);
    LinesCostTotal(stages, h, labor, rate, TotalHours(stages, labor, surface, env));
  }

  /** The breakdown and the total hours are the generic lines and sum over the masked stage hours. */
  lemma MaskedForms(stages: seq<PaintingStage>, labor: LaborData, surface: SurfaceType, env: WorkEnvironment,
                    rate: real)
    ensures Breakdown(stages, labor, surface, env, rate) == Lines(stages, Masked(StageHoursOf(labor, surface, env)), labor, rate)
    ensures TotalHours(stages, labor, surface, env) == SumReal(stages, Masked(StageHoursOf(labor, surface, env)))
  {
  }

  /** The hours per m² of one stage, worked out step by step as the calculation pass does. */
  method ComputeStageHours(stage: PaintingStage, labor: LaborData, surface: SurfaceType,
                           env: WorkEnvironment) returns (stageHours: real)
    ensures stageHours == StageHours(stage, labor, surface, env)
  {
    if labor.productivityMode == Hourly && stage.customProductivityHour != 0.0 {
      var hoursPerSqm := 1.0 / stage.customProductivityHour;
      stageHours := hoursPerSqm * stage.coats as real;
    } else if labor.productivityMode == Daily && stage.customProductivityDay != 0.0 {
      var hoursPerSqm := labor.workingHours / stage.customProductivityDay;
      stageHours := hoursPerSqm * stage.coats as real;
    } else {
      stageHours := ComputeScientificHours(stage.name, stage.coats, surface, env);
    }
  }

  /** The hours per m² by the scientific standards, accumulated and scaled step by step. */
  method ComputeScientificHours(name: StageName, coats: int, surface: SurfaceType, env: WorkEnvironment)
    returns (stageHours: real)
    ensures stageHours == ScientificHours(name, coats, surface, env)
  {
    stageHours := ApplyStandards(ProductionRate(name, surface), coats, name == Topcoat,
                                 SurfaceFactor(surface), EnvironmentFactor(env));
  }

  /** The scientific branch's statements on the looked-up rate and factors: the coats are added up
      from `baseRate`, then the total is scaled by the surface and the environment factor. */
  method ApplyStandards(baseRate: real, coats: int, repaint: bool, surfaceFactor: real, environmentFactor: real)
    returns (stageHours: real)
    ensures stageHours == CoatsWorth(coats, repaint) * (baseRate * surfaceFactor * environmentFactor)
  {
    stageHours := 0.0;
    if repaint && coats > 1 {
      stageHours := stageHours + baseRate;
      stageHours := stageHours + (coats - 1) as real * (baseRate * 0.8);
      ScaledRepaintHours(baseRate, (coats - 1) as real, surfaceFactor, environmentFactor);
    } else {
      stageHours := stageHours + baseRate * coats as real;
      ScaledHours(baseRate, coats as real, surfaceFactor, environmentFactor);
    }
    stageHours := stageHours * surfaceFactor;
    stageHours := stageHours * environmentFactor;
  }

  /** The calculation pass of the calculator: one walk over the stage list accumulating the
      total hours and the per-stage lines, then labour, materials, markup and duration. */
  method CalculateCost(labor: LaborData, material: MaterialData, project: ProjectData,
                       business: BusinessData) returns (r: Option<CostResult>)
    ensures r == Estimate(labor, material, project, business)
  {
    var rate := HourlyRate(labor);
    if rate.None? {
      // The original carries on with an infinite or NaN rate, which every cost derived from it
      // inherits; the hours and the material cost it computes stay finite but are not returned.
      return None;
    }
    var hourlyRate := rate.value;
    var stageBreakdown, totalHours :=
      WalkStages(project.stages, labor, project.surfaceType, project.workEnvironment, hourlyRate);
    r := ComputeTotals(stageBreakdown, totalHours, hourlyRate, labor, material, project, business);
  }

  /** The walk over the stages: each enabled stage adds its hours to the total and its line to
      the breakdown; disabled stages are skipped. */
  method WalkStages(stages: seq<PaintingStage>, labor: LaborData, surface: SurfaceType, env: WorkEnvironment,
                    hourlyRate: real) returns (stageBreakdown: seq<StageResult>, totalHours: real)
    ensures stageBreakdown == Breakdown(stages, labor, surface, env, hourlyRate)
    ensures totalHours == TotalHours(stages, labor, surface, env)
  {
    ghost var hours := HoursOf(labor, surface, env);
    stageBreakdown := [];
    totalHours := 0.0;
    var i := 0;
    while i < |stages|
      invariant 0 <= i <= |stages|
      invariant totalHours == SumReal(stages[..i], hours)
      invariant stageBreakdown == Lines(stages[..i], hours, labor, hourlyRate)
    {
      var stage := stages[i];
      assert stages[..i + 1][..i] == stages[..i];
      assert SumReal(stages[..i + 1], hours) == totalHours + hours(stage);
      if stage.enabled {
        var stageHours := ComputeStageHours(stage, labor, surface, env);
        assert hours(stage) == stageHours;
        assert Lines(stages[..i + 1], hours, labor, hourlyRate)
               == stageBreakdown + [LineOf(stage, stageHours, labor, hourlyRate)];
        var stageCost := stageHours * hourlyRate;
        assert LineOf(stage, stageHours, labor, hourlyRate)
               == StageResult(stage.description, stageHours, stageCost, stage.coats, Basis(stage, labor));
        totalHours := totalHours + stageHours;
        stageBreakdown := stageBreakdown
          + [StageResult(stage.description, stageHours, stageCost, stage.coats, Basis(stage, labor))];
        assert stageBreakdown == Lines(stages[..i + 1], hours, labor, hourlyRate);
      } else {
        assert Lines(stages[..i + 1], hours, labor, hourlyRate) == stageBreakdown + [];
        assert stageBreakdown + [] == stageBreakdown;
      }
      i := i + 1;
    }
    assert stages[..i] == stages;
  }

  /** The labour, material, markup and duration figures once the stages have been walked. */
  method ComputeTotals(stageBreakdown: seq<StageResult>, totalHours: real, hourlyRate: real, labor: LaborData,
                       material: MaterialData, project: ProjectData, business: BusinessData)
    returns (r: Option<CostResult>)
    ensures r == Some(Aggregate(stageBreakdown, totalHours, hourlyRate, labor,
                                MaterialCost(material, TotalCoats(project.stages)), project.area, business))
  {
    var basicLaborCost := totalHours * hourlyRate;
    var laborBurdenCost := basicLaborCost * (labor.laborBurden / 100.0);
    var totalLaborCostPerSqm := basicLaborCost + laborBurdenCost;

    var materialCostPerSqm := 0.0;
    if material.includeMaterials {
      var wasteFactor := 1.0 + material.wastePercentage / 100.0;
      var totalCoats := TotalCoats(project.stages);
      materialCostPerSqm := material.pricePerSqm * wasteFactor * totalCoats;
    }
    assert materialCostPerSqm == MaterialCost(material, TotalCoats(project.stages));
    ghost var expected :=
      Aggregate(stageBreakdown, totalHours, hourlyRate, labor, materialCostPerSqm, project.area, business);
    assert expected.laborCostPerSqm == totalLaborCostPerSqm;

    var totalCostPerSqm := totalLaborCostPerSqm + materialCostPerSqm;
    var overheadCost := totalCostPerSqm * (business.overhead / 100.0);
    var costWithOverhead := totalCostPerSqm + overheadCost;
    var profitAmount := costWithOverhead * (business.profitMargin / 100.0);
    var suggestedPricePerSqm := costWithOverhead + profitAmount;
    assert expected.breakdown == CostBreakdown(basicLaborCost, laborBurdenCost, materialCostPerSqm, overheadCost, profitAmount);
    assert expected.suggestedPricePerSqm == suggestedPricePerSqm;

    var dailyProductivity := if totalHours != 0.0 then Some(labor.workingHours / totalHours) else None;
    var daysRequired :=
      if labor.workingHours == 0.0 then None
      else if totalHours == 0.0 then Some(0.0)
      else Some(project.area / (labor.workingHours / totalHours));
    var totalProjectCost := suggestedPricePerSqm * project.area;
    assert expected.totalProjectCost == totalProjectCost;

    r := Some(CostResult(
      stageBreakdown, totalHours, totalLaborCostPerSqm, materialCostPerSqm, totalCostPerSqm,
      suggestedPricePerSqm, totalProjectCost, dailyProductivity, daysRequired,
      CostBreakdown(basicLaborCost, laborBurdenCost, materialCostPerSqm, overheadCost, profitAmount)));
  }

  /** Counting the coats stage by stage, disabled ones as nothing, is the same as filtering the
      enabled stages and adding up their coats. */
  lemma {:induction false} TotalCoatsOfEnabled(stages: seq<PaintingStage>)
    ensures TotalCoats(stages) == SumReal(EnabledStages(stages), StageCoats)
  {
    if |stages| > 0 {
      var init, last := stages[..|stages| - 1], stages[|stages| - 1];
      TotalCoatsOfEnabled(init);
      var tail := if last.enabled then [last] else [];
      SumRealAppend(EnabledStages(init), tail, StageCoats);
      if last.enabled {
        assert tail[..0] == [];
      }
    }
  }

  /** The estimate's materials: nothing when they are excluded, otherwise the price per coat with
      the waste added, for every coat of every enabled stage. */
  lemma EstimateMaterials(labor: LaborData, material: MaterialData, project: ProjectData, business: BusinessData)
    requires labor.useCompositeCrew || labor.workingHours != 0.0
    ensures var c := Estimate(labor, material, project, business).value;
      && c.materialCostPerSqm == c.breakdown.materials
      && (!material.includeMaterials ==> c.materialCostPerSqm == 0.0)
      && (material.includeMaterials ==>
            c.materialCostPerSqm == material.pricePerSqm * (1.0 + material.wastePercentage / 100.0)
                                    * SumReal(EnabledStages(project.stages), StageCoats))
  {
    TotalCoatsOfEnabled(project.stages);
  }

  lemma DaysFromProductivity(area: real, workingHours: real, totalHours: real)
    ensures workingHours != 0.0 && totalHours != 0.0 ==>
      area / (workingHours / totalHours) == area * totalHours / workingHours
  {
    if workingHours == 0.0 || totalHours == 0.0 {
      return;
    }
    var d := workingHours / totalHours;
    assert d * totalHours == workingHours;
    assert (area * totalHours / workingHours) * d == area;
  }

  lemma {:induction false} LinesAppend(s: seq<PaintingStage>, t: seq<PaintingStage>,
                                       hours: PaintingStage -> real, labor: LaborData, rate: real)
    ensures Lines(s + t, hours, labor, rate) == Lines(s, hours, labor, rate) + Lines(t, hours, labor, rate)
  {
    if |t| == 0 {
      assert s + t == s;
    } else {
      assert (s + t)[..|s + t| - 1] == s + t[..|t| - 1];
      LinesAppend(s, t[..|t| - 1], hours, labor, rate);
    }
  }

  /** The line a stage contributes: its own when it is enabled, none otherwise. */
  function LineBag(stage: PaintingStage, hours: PaintingStage -> real, labor: LaborData, rate: real)
    : multiset<StageResult>
  {
    if stage.enabled then multiset{LineOf(stage, hours(stage), labor, rate)} else multiset{}
  }

  /** Taking the stage at `k` out takes exactly its line out of the lines. */
  lemma LinesRemoveAt(stages: seq<PaintingStage>, k: nat, hours: PaintingStage -> real, labor: LaborData,
                      rate: real)
    requires k < |stages|
    ensures multiset(Lines(stages, hours, labor, rate))
            == multiset(Lines(RemoveAt(stages, k), hours, labor, rate)) + LineBag(stages[k], hours, labor, rate)
  {
    var before, x, after := stages[..k], stages[k], stages[k + 1..];
    assert stages == before + [x] + after;
    assert RemoveAt(stages, k) == before + after;
    LinesAppend(before + [x], after, hours, labor, rate);
    LinesAppend(before, [x], hours, labor, rate);
    LinesAppend(before, after, hours, labor, rate);
    assert [x][..0] == [];
    assert multiset(Lines([x], hours, labor, rate)) == LineBag(x, hours, labor, rate);
  }

  /** Reordering the stages reorders their lines and changes none of them. */
  lemma {:induction false} LinesPermutation(stages: seq<PaintingStage>, reordered: seq<PaintingStage>,
                                            hours: PaintingStage -> real, labor: LaborData, rate: real)
    requires multiset(reordered) == multiset(stages)
    ensures multiset(Lines(reordered, hours, labor, rate)) == multiset(Lines(stages, hours, labor, rate))
  {
    if |stages| == 0 {
      assert |reordered| == |multiset(reordered)| == 0;
    } else {
      var k := PermutationOfInit(stages, reordered);
      var init, last := stages[..|stages| - 1], stages[|stages| - 1];
      LinesPermutation(init, RemoveAt(reordered, k), hours, labor, rate);
      LinesRemoveAt(reordered, k, hours, labor, rate);
      var tail := if last.enabled then [LineOf(last, hours(last), labor, rate)] else [];
      assert Lines(stages, hours, labor, rate) == Lines(init, hours, labor, rate) + tail;
      assert multiset(tail) == LineBag(last, hours, labor, rate);
    }
  }

  /** The lines are exactly the enabled stages, in order, each with its own hours. */
  lemma {:induction false} LinesFollowEnabledStages(stages: seq<PaintingStage>, hours: PaintingStage -> real,
                                                    labor: LaborData, rate: real)
    ensures var b, e := Lines(stages, hours, labor, rate), EnabledStages(stages);
      && |b| == |e|
      && forall k :: 0 <= k < |b| ==> b[k] == LineOf(e[k], hours(e[k]), labor, rate)
  {
    if |stages| > 0 {
      LinesFollowEnabledStages(stages[..|stages| - 1], hours, labor, rate);
    }
  }

  /** The lines' hours add up to the hours of all stages. */
  lemma {:induction false} LinesHours(stages: seq<PaintingStage>, hours: PaintingStage -> real,
                                      labor: LaborData, rate: real)
    ensures SumReal(Lines(stages, Masked(hours), labor, rate), ResultHours) == SumReal(stages, Masked(hours))
  {
    if |stages| > 0 {
      var init, last, m := stages[..|stages| - 1], stages[|stages| - 1], Masked(hours);
      LinesHours(init, hours, labor, rate);
      var tail := if last.enabled then [LineOf(last, m(last), labor, rate)] else [];
      SumRealAppend(Lines(init, m, labor, rate), tail, ResultHours);
      if last.enabled {
        assert tail[..0] == [];
      }
    }
  }

  /** Every line costs its hours at the hourly rate. */
  lemma {:induction false} LineCostIsHoursAtRate(stages: seq<PaintingStage>, hours: PaintingStage -> real,
                                                 labor: LaborData, rate: real)
    ensures forall line :: line in Lines(stages, hours, labor, rate) ==> ResultCost(line) == ResultHours(line) * rate
  {
    if |stages| > 0 {
      LineCostIsHoursAtRate(stages[..|stages| - 1], hours, labor, rate);
    }
  }
}
