/** The edits to the stage list: removing a stage, appending a new custom stage, and moving a
    stage by drag and drop; none of them changes a total it should not. */
module StageList {
  import opened Wrappers
  import opened Sums
  import opened CalculatorModel
  import opened Pricing
  import opened Estimation

  /** The stages whose position differs from `index`, in order: an index outside the list
      removes nothing. */
  function RemoveStage(stages: seq<PaintingStage>, index: int): (r: seq<PaintingStage>)
    ensures 0 <= index < |stages| ==> r == RemoveAt(stages, index)
    ensures !(0 <= index < |stages|) ==> r == stages
  {
    if |stages| == 0 then []
    else
      var init, last := stages[..|stages| - 1], stages[|stages| - 1];
      var kept := RemoveStage(init, index);
      assert stages == init + [last];
      RemoveAtSnoc(init, last, index);
      if index == |stages| - 1 then kept else kept + [last]
  }

  /** The stage the add button appends: an enabled custom stage of one coat, without custom rates. */
  const NewStage := PaintingStage(Custom, true, 1, "مرحلة جديدة", 0.0, 0.0)

  /** The list with the new custom stage at its end and the existing stages unchanged. */
  function AddNewStage(stages: seq<PaintingStage>): (r: seq<PaintingStage>)
    ensures |r| == |stages| + 1
    ensures r[..|stages|] == stages
    ensures r[|stages|] == NewStage && r[|stages|].enabled && r[|stages|].coats == 1
  {
    stages + [NewStage]
  }

  /** Dropping the dragged stage `dragged` on the row `dropIndex`: it is taken out of the list and
      put back at `dropIndex`, or at the end when `dropIndex` is past the shortened list. Nothing
      changes when no stage is being dragged or it is dropped on its own row. */
  method HandleDrop(stages: seq<PaintingStage>, dragged: Option<nat>, dropIndex: nat)
    returns (r: seq<PaintingStage>)
    requires dragged.Some? ==> dragged.value < |stages|
    ensures dragged.None? || dragged.value == dropIndex ==> r == stages
    ensures |r| == |stages|
    ensures multiset(r) == multiset(stages)
    ensures dragged.Some? && dragged.value != dropIndex ==>
      var at := if dropIndex < |stages| then dropIndex else |stages| - 1;
      && r[at] == stages[dragged.value]
      && RemoveAt(r, at) == RemoveAt(stages, dragged.value)
  {
    if dragged.None? || dragged.value == dropIndex {
      return stages;
    }
    var from := dragged.value;
    var newStages := stages;
    var draggedStage := newStages[from];
    newStages := newStages[..from] + newStages[from + 1..];
    assert newStages == RemoveAt(stages, from);
    var at := if dropIndex <= |newStages| then dropIndex else |newStages|;
    ghost var shortened := newStages;
    newStages := newStages[..at] + [draggedStage] + newStages[at..];
    assert shortened[..at] + shortened[at..] == shortened;
    assert newStages[..at] == shortened[..at] && newStages[at + 1..] == shortened[at..];
    assert RemoveAt(newStages, at) == shortened;
    r := newStages;
  }

  /** Removing the stage at `k` takes exactly its hours and its coats out of the totals. */
  lemma RemoveStageTotals(stages: seq<PaintingStage>, k: nat, labor: LaborData, surface: SurfaceType,
                          env: WorkEnvironment)
    requires k < |stages|
    ensures TotalHours(RemoveStage(stages, k), labor, surface, env)
            == TotalHours(stages, labor, surface, env) - HoursOf(labor, surface, env)(stages[k])
    ensures TotalCoats(RemoveStage(stages, k)) == TotalCoats(stages) - CoatsOf(stages[k])
  {
    SumRealRemoveAt(stages, k, HoursOf(labor, surface, env));
    SumRealRemoveAt(stages, k, CoatsOf);
  }

  /** The new stage adds one coat to the materials and its standard hours to the total. */
  lemma AddNewStageTotals(stages: seq<PaintingStage>, labor: LaborData, surface: SurfaceType, env: WorkEnvironment)
    ensures TotalCoats(AddNewStage(stages)) == TotalCoats(stages) + 1.0
    ensures TotalHours(AddNewStage(stages), labor, surface, env)
            == TotalHours(stages, labor, surface, env) + UnitHours(Custom, surface, env)
  {
    var r := AddNewStage(stages);
    assert r[..|r| - 1] == stages;
    assert Basis(NewStage, labor) == ScientificStandards;
  }

  /** Taking a disabled stage out leaves the lines untouched, whatever the hours of each stage. */
  lemma LinesSkipDisabled(stages: seq<PaintingStage>, k: nat, hours: PaintingStage -> real,
                          labor: LaborData, rate: real)
    requires k < |stages| && !stages[k].enabled
    ensures Lines(RemoveAt(stages, k), hours, labor, rate) == Lines(stages, hours, labor, rate)
  {
    var before, after := stages[..k], stages[k + 1..];
    assert stages == before + [stages[k]] + after;
    assert RemoveAt(stages, k) == before + after;
    LinesAppend(before + [stages[k]], after, hours, labor, rate);
    LinesAppend(before, [stages[k]], hours, labor, rate);
    LinesAppend(before, after, hours, labor, rate);
    assert [stages[k]][..0] == [];
    assert Lines([stages[k]], hours, labor, rate) == [];
  }

  /** A disabled stage is inert: removing it changes nothing in the estimate. */
  lemma DisabledStageIsInert(labor: LaborData, material: MaterialData, project: ProjectData,
                             business: BusinessData, k: nat)
    requires k < |project.stages| && !project.stages[k].enabled
    ensures Estimate(labor, material, project.(stages := RemoveStage(project.stages, k)), business)
            == Estimate(labor, material, project, business)
  {
    var stages, surface, env := project.stages, project.surfaceType, project.workEnvironment;
    var removed := RemoveStage(stages, k);
    RemoveStageTotals(stages, k, labor, surface, env);
    assert TotalHours(removed, labor, surface, env) == TotalHours(stages, labor, surface, env);
    assert TotalCoats(removed) == TotalCoats(stages);
    if HourlyRate(labor).Some? {
      var rate := HourlyRate(labor).value;
      LinesSkipDisabled(stages, k, HoursOf(labor, surface, env), labor, rate);
      assert Breakdown(removed, labor, surface, env, rate) == Breakdown(stages, labor, surface, env, rate);
    }
  }

  /** Reordering the stages keeps their total hours and total coats. */
  lemma ReorderKeepsTotals(stages: seq<PaintingStage>, reordered: seq<PaintingStage>, labor: LaborData,
                           surface: SurfaceType, env: WorkEnvironment)
    requires multiset(reordered) == multiset(stages)
    ensures TotalHours(reordered, labor, surface, env) == TotalHours(stages, labor, surface, env)
    ensures TotalCoats(reordered) == TotalCoats(stages)
  {
    SumRealPermutation(stages, reordered, HoursOf(labor, surface, env));
    SumRealPermutation(stages, reordered, CoatsOf);
  }

  /** Reordering the stages (a drop, say) changes the estimate only in its lines: every cost, the
      price, the project total and the duration stay as they were. */
  lemma ReorderKeepsEstimate(labor: LaborData, material: MaterialData, project: ProjectData,
                             business: BusinessData, reordered: seq<PaintingStage>)
    requires multiset(reordered) == multiset(project.stages)
    ensures var before := Estimate(labor, material, project, business);
      var after := Estimate(labor, material, project.(stages := reordered), business);
      && after.Some? == before.Some?
      && (after.Some? ==> after.value == before.value.(stageBreakdown := after.value.stageBreakdown))
  {
    ReorderKeepsTotals(project.stages, reordered, labor, project.surfaceType, project.workEnvironment);
  }

  /** Reordering the stages only reorders the estimate's lines: it has the same lines as before. */
  lemma ReorderKeepsLines(labor: LaborData, material: MaterialData, project: ProjectData,
                          business: BusinessData, reordered: seq<PaintingStage>)
    requires multiset(reordered) == multiset(project.stages)
    requires labor.useCompositeCrew || labor.workingHours != 0.0
    ensures multiset(Estimate(labor, material, project.(stages := reordered), business).value.stageBreakdown)
            == multiset(Estimate(labor, material, project, business).value.stageBreakdown)
  {
    var surface, env := project.surfaceType, project.workEnvironment;
    LinesPermutation(project.stages, reordered, HoursOf(labor, surface, env), labor, HourlyRate(labor).value);
  }
}
