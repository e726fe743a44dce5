/** The calculator's inputs and outputs, and its fixed productivity tables. */
module CalculatorModel {
  import opened Wrappers

  /** The stage names the production-rate table knows; no other name can be looked up. */
  datatype StageName =
    Sanding | Sealer | Primer | Skimcoat1 | Skimcoat2 | Basecoat | Topcoat | Finishing | Custom

  datatype SurfaceType = Walls | Ceilings | Timber | Metal | Textured

  datatype WorkEnvironment = Interior | Exterior | ExteriorHeight

  datatype ProductivityMode = Scientific | Hourly | Daily

  datatype ApplicationMethod = Airless | Roller | Brush

  /** One painting stage. An absent custom productivity is the same as 0 to the calculation. */
  datatype PaintingStage = PaintingStage(
    name: StageName,
    enabled: bool,
    coats: int,
    description: string,
    customProductivityHour: real,  // m² per hour
    customProductivityDay: real)   // m² per working day

  /** Labour inputs; the crew fields are optional in the original and stay so here. */
  datatype LaborData = LaborData(
    dailyWage: real,
    workingHours: real,
    laborBurden: real,             // percent
    productivityMode: ProductivityMode,
    useCompositeCrew: bool,
    painterDaily: Option<real>,
    helperDaily: Option<real>,
    foremanDaily: Option<real>,
    adminDaily: Option<real>,
    transportDaily: Option<real>,
    rHelper: Option<real>,         // helper hours per painter hour
    rForeman: Option<real>)        // foreman hours per painter hour

  datatype MaterialData = MaterialData(
    includeMaterials: bool,
    pricePerSqm: real,             // per coat
    wastePercentage: real,
    useGallonCalculator: bool,
    gallonPrice: real,
    coveragePerGallon: real,       // m² per gallon
    useEngineeringMaterials: bool,
    vs: Option<real>,              // volume-solids fraction
    dft: Option<real>,             // microns
    applicationMethod: Option<ApplicationMethod>)

  datatype ProjectData = ProjectData(
    surfaceType: SurfaceType,
    workEnvironment: WorkEnvironment,
    area: real,
    stages: seq<PaintingStage>)

  datatype BusinessData = BusinessData(overhead: real, profitMargin: real)  // both percent

  /** Which productivity figure a stage's hours came from (the text shown beside each stage). */
  datatype ProductivityBasis =
    | CustomHourly(sqmPerHour: real)
    | CustomDaily(sqmPerDay: real)
    | ScientificStandards

  datatype StageResult = StageResult(
    stage: string,
    hours: real,                   // per m²
    cost: real,                    // per m²
    coats: int,
    basis: ProductivityBasis)

  datatype CostBreakdown = CostBreakdown(
    basicLabor: real, laborBurden: real, materials: real, overhead: real, profit: real)

  /** `dailyProductivity` and `daysRequired` are `None` where the original divides its way to
      an infinity or NaN. */
  datatype CostResult = CostResult(
    stageBreakdown: seq<StageResult>,
    totalHours: real,
    laborCostPerSqm: real,
    materialCostPerSqm: real,
    totalCostPerSqm: real,
    suggestedPricePerSqm: real,
    totalProjectCost: real,
    dailyProductivity: Option<real>,
    daysRequired: Option<real>,
    breakdown: CostBreakdown)

  /** Hours per m² for one coat of a stage. The table has rows for walls, ceilings and textured
      surfaces only; timber and metal read the walls row. */
  function ProductionRate(name: StageName, surface: SurfaceType): (r: real)
    ensures r > 0.0
  {
    var row := match name
      case Sanding => (0.20, 0.25, 0.30)
      case Sealer => (0.10, 0.15, 0.18)
      case Primer => (0.08, 0.12, 0.15)
      case Skimcoat1 => (0.25, 0.30, 0.35)
      case Skimcoat2 => (0.20, 0.25, 0.30)
      case Basecoat => (0.12, 0.18, 0.22)
      case Topcoat => (0.10, 0.15, 0.18)
      case Finishing => (0.05, 0.08, 0.10)
      case Custom => (0.10, 0.15, 0.18);
    match surface
    case Ceilings => row.1
    case Textured => row.2
    case _ => row.0
  }

  /** Timber and metal are not keys of the rate table and fall back to its walls row. */
  lemma TimberAndMetalUseWallsRow(name: StageName)
    ensures ProductionRate(name, Timber) == ProductionRate(name, Walls)
    ensures ProductionRate(name, Metal) == ProductionRate(name, Walls)
  {
  }

  /** For every stage, a ceiling takes longer than a wall and a textured surface longer still. */
  lemma RowsOrderedBySurface(name: StageName)
    ensures ProductionRate(name, Walls) < ProductionRate(name, Ceilings) < ProductionRate(name, Textured)
  {
  }

  /** Extra time a surface needs relative to plain walls. */
  function SurfaceFactor(surface: SurfaceType): (f: real)
    ensures f >= 1.0
    ensures f == 1.0 <==> surface == Walls
  {
    match surface
    case Walls => 1.0
    case Ceilings => 1.25
    case Timber => 1.20
    case Metal => 1.30
    case Textured => 1.45
  }

  /** Extra time outdoor and high work needs relative to interior work. */
  function EnvironmentFactor(env: WorkEnvironment): (f: real)
    ensures f >= 1.0
    ensures f == 1.0 <==> env == Interior
  {
    match env
    case Interior => 1.0
    case Exterior => 1.35
    case ExteriorHeight => 1.6
  }
}
