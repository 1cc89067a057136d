/** Scenarios (`Scenario` in `electric_waltz/scenario.py`): a load series, a
    fleet, and the hour-by-hour balancing loop. In every step the inflexible
    sources (baseload and intermittent) run as they are; a surplus goes to
    storage, then abroad, and the rest is dumped; a deficit is covered by
    storage, then by the flexible sources in merit order, then by import,
    and the rest is a shortage. */
module Scenarios {
  import opened Common
  import opened Reductions
  import opened History
  import opened Sources
  import opened CrossBorder
  import opened StorageUnits
  import opened Dispatch
  import opened Stats

  datatype Fleet<!U> = Fleet(
    baseloads: seq<PowerSource>,      // run as they are, e.g. nuclear
    intermittents: seq<PowerSource>,  // follow their capacity-factor series
    flexibles: seq<PowerSource>,      // dispatched in merit order
    storages: seq<U>,
    crossBorder: Option<Terminal>
  )

  datatype Scenario<!U> = Scenario(
    load: seq<real>,            // net load per step, MW
    fleet: Fleet<U>,
    factors: seq<seq<real>>,    // factors[k][i]: capacity factor of intermittent k in step i
    losses: real                // grid losses as a share of the load
  )

  /** Every source the statistics follow, in the order they are registered:
      baseloads, intermittents, flexibles. */
  function AllSources<U>(fleet: Fleet<U>): (r: seq<PowerSource>)
    ensures |r| == |fleet.baseloads| + |fleet.intermittents| + |fleet.flexibles|
    ensures r[..|fleet.baseloads|] == fleet.baseloads
    ensures forall k :: 0 <= k < |fleet.intermittents| ==> r[|fleet.baseloads| + k] == fleet.intermittents[k]
    ensures r[|fleet.baseloads| + |fleet.intermittents|..] == fleet.flexibles
  {
    fleet.baseloads + fleet.intermittents + fleet.flexibles
  }

  /** Net generation of the baseload and intermittent sources. */
  function Inflexible<U>(fleet: Fleet<U>): real
  {
    TotalNetGeneration(fleet.baseloads) + TotalNetGeneration(fleet.intermittents)
  }

  predicate FleetValid<U>(fleet: Fleet<U>) {
    AllValid(fleet.baseloads) && AllValid(fleet.intermittents) && AllValid(fleet.flexibles)
  }

  /** The terminal, if there is one, has a capacity that is not negative. The
      terminal's constructor does not check this. */
  predicate TerminalSound<U>(fleet: Fleet<U>) {
    fleet.crossBorder.Some? ==> 0.0 <= fleet.crossBorder.value.capacity
  }

  /** `after` is `before` some steps later: the same units with the same
      nameplates, whatever their capacity factors, and the same terminal. */
  predicate SameFleet<U>(after: Fleet<U>, before: Fleet<U>) {
    && after.baseloads == before.baseloads
    && SameUnits(after.intermittents, before.intermittents)
    && SameUnits(after.flexibles, before.flexibles)
    && |after.storages| == |before.storages|
    && (after.crossBorder.Some? <==> before.crossBorder.Some?)
    && (after.crossBorder.Some? ==> after.crossBorder.value.capacity == before.crossBorder.value.capacity)
  }

  // ---- Construction -----------------------------------------------------------

  predicate LossesValid(losses: real) {
    0.0 <= losses < 1.0
  }

  predicate SeriesFit(load: seq<real>, intermittents: seq<(PowerSource, seq<real>)>) {
    forall k :: 0 <= k < |intermittents| ==> |intermittents[k].1| == |load|
  }

  predicate FactorsValid(intermittents: seq<(PowerSource, seq<real>)>) {
    forall k, i :: 0 <= k < |intermittents| && 0 <= i < |intermittents[k].1| ==>
      0.0 <= intermittents[k].1[i] <= 1.0
  }

  function IntermittentUnits(intermittents: seq<(PowerSource, seq<real>)>): (r: seq<PowerSource>)
    ensures |r| == |intermittents|
    ensures forall k :: 0 <= k < |intermittents| ==> r[k] == intermittents[k].0
  {
    seq(|intermittents|, k requires 0 <= k < |intermittents| => intermittents[k].0)
  }

  function Series(intermittents: seq<(PowerSource, seq<real>)>): (r: seq<seq<real>>)
    ensures |r| == |intermittents|
    ensures forall k :: 0 <= k < |intermittents| ==> r[k] == intermittents[k].1
  {
    seq(|intermittents|, k requires 0 <= k < |intermittents| => intermittents[k].1)
  }

  /** What a well-formed scenario satisfies: valid losses, one capacity
      factor in [0, 1] per intermittent source and step, and valid sources. */
  predicate ScenarioValid<U>(s: Scenario<U>) {
    && LossesValid(s.losses)
    && |s.factors| == |s.fleet.intermittents|
    && (forall k :: 0 <= k < |s.factors| ==> |s.factors[k]| == |s.load|)
    && (forall k, i :: 0 <= k < |s.factors| && 0 <= i < |s.factors[k]| ==> 0.0 <= s.factors[k][i] <= 1.0)
    && FleetValid(s.fleet)
  }

  /** `Scenario.__init__`: the losses are checked first (an assertion), then
      the length of every capacity-factor series, then every factor. */
  function NewScenario<U>(load: seq<real>, baseloads: seq<PowerSource>, flexibles: seq<PowerSource>,
                          intermittents: seq<(PowerSource, seq<real>)>, storages: seq<U>,
                          crossBorder: Option<Terminal>, losses: real): (r: Result<Scenario<U>>)
    ensures r.Ok? <==> LossesValid(losses) && SeriesFit(load, intermittents) && FactorsValid(intermittents)
    ensures r.Err? && r.error == AssertionError <==> !LossesValid(losses)
    ensures r.Err? && r.error == WrongDimensions <==> LossesValid(losses) && !SeriesFit(load, intermittents)
    ensures r.Err? && r.error == InvalidCapacityFactor
            <==> LossesValid(losses) && SeriesFit(load, intermittents) && !FactorsValid(intermittents)
    ensures r.Ok? ==> && NumSteps(r.value) == |load|
                      && r.value.fleet == Fleet(baseloads, IntermittentUnits(intermittents), flexibles, storages, crossBorder)
                      && r.value.factors == Series(intermittents) && r.value.losses == losses
    ensures r.Ok? && AllValid(baseloads) && AllValid(IntermittentUnits(intermittents)) && AllValid(flexibles)
            ==> ScenarioValid(r.value)
  {
    if !LossesValid(losses) then Err(AssertionError)
    else if !SeriesFit(load, intermittents) then Err(WrongDimensions)
    else if !FactorsValid(intermittents) then Err(InvalidCapacityFactor)
    else Ok(Scenario(load, Fleet(baseloads, IntermittentUnits(intermittents), flexibles, storages, crossBorder),
                     Series(intermittents), losses))
  }

  /** `Scenario.num_steps`. */
  function NumSteps<U>(s: Scenario<U>): nat
  {
    |s.load|
  }

  // ---- One balancing step -------------------------------------------------------

  /** What one step did. Only `shortage` is returned by `_step`; the other
      flows are its local values, kept so the balance can be stated. */
  datatype StepResult<!U> = StepResult(
    fleet: Fleet<U>,
    inflexible: real,   // baseload plus intermittent net generation
    charging: real,     // power absorbed by storage
    exported: real,     // power sent abroad
    discharging: real,  // power delivered by storage
    flexible: real,     // power of the dispatched flexible sources
    imported: real,     // power brought in from abroad
    shortage: real      // unmet load (positive) or dumped surplus (negative)
  )

  /** The surplus branch of `_step`: the flexible sources are shut down, the
      surplus charges storage, what storage cannot take is exported, and the
      rest is dumped, reported as a negative shortage. */
  function SurplusStep<U(!new)>(fleet: Fleet<U>, io: StorageInterface<U>, consumption: real): (r: StepResult<U>)
    requires FleetValid(fleet) && consumption <= Inflexible(fleet)
    ensures SameFleet(r.fleet, fleet) && FleetValid(r.fleet)
    ensures r.fleet.baseloads == fleet.baseloads && r.fleet.intermittents == fleet.intermittents
    ensures r.fleet.flexibles == ShutDownAll(fleet.flexibles) && TotalNetGeneration(r.fleet.flexibles) == 0.0
    ensures r.inflexible == Inflexible(fleet)
    ensures r.discharging == 0.0 && r.flexible == 0.0 && r.imported == 0.0
    ensures r.shortage <= 0.0
    ensures var c := ChargeStorage(io, fleet.storages, Inflexible(fleet) - consumption);
            r.charging == c.total && r.fleet.storages == c.units
    ensures fleet.crossBorder.Some? ==>
              r.exported == Min(fleet.crossBorder.value.capacity, Max(0.0, Inflexible(fleet) - consumption - r.charging))
    ensures fleet.crossBorder.None? ==> r.exported == 0.0
    ensures fleet.crossBorder.Some? ==> r.fleet.crossBorder.value.netImport == -r.exported
    ensures r.shortage < 0.0 && fleet.crossBorder.Some? ==> r.exported == fleet.crossBorder.value.capacity
    ensures Conforms(io) ==> Names(io, r.fleet.storages) == Names(io, fleet.storages)
    ensures Conforms(io) && TerminalSound(fleet) ==>
              && 0.0 <= r.charging && 0.0 <= r.exported
              && r.inflexible == consumption + r.charging + r.exported - r.shortage
  {
    var inflexible := Inflexible(fleet);
    var flexibles := ShutDownAll(fleet.flexibles);
    var surplus := inflexible - consumption;
    var charged := ChargeStorage(io, fleet.storages, surplus);
    var left := Max(0.0, surplus - charged.total);
    var exportResult := if fleet.crossBorder.Some? then ExportAt(fleet.crossBorder.value, left) else (Terminal(0.0, 0.0), 0.0);
    var terminal := if fleet.crossBorder.Some? then Some(exportResult.0) else None;
    var exported := exportResult.1;
    var fleet' := fleet.(flexibles := flexibles, storages := charged.units, crossBorder := terminal);
    StepResult(fleet', inflexible, charged.total, exported, 0.0, 0.0, 0.0, -Max(0.0, left - exported))
  }

  /** What is left of a deficit once storage has discharged. */
  datatype Cover = Cover(
    flexibles: seq<PowerSource>,
    generation: real,            // power of the dispatched flexible sources
    crossBorder: Option<Terminal>,
    imported: real,
    shortage: real
  )

  /** The tail of the deficit branch of `_step`: the flexible sources are
      dispatched in merit order when some deficit is left and shut down when
      none is; then the terminal, if any, imports what is still missing, and
      the rest is the shortage. */
  function CoverDeficit(flexibles: seq<PowerSource>, crossBorder: Option<Terminal>, missing: real): (r: Cover)
    requires AllValid(flexibles) && 0.0 <= missing
    ensures SameUnits(r.flexibles, flexibles) && AllValid(r.flexibles)
    ensures TotalNetGeneration(r.flexibles) == r.generation
    ensures missing > 0.0 ==> && r.flexibles == DispatchSources(flexibles, missing).units
                              && r.generation == Min(missing, TotalMaxNetPower(flexibles))
    ensures missing == 0.0 ==> r.flexibles == ShutDownAll(flexibles) && r.generation == 0.0
    ensures r.crossBorder.Some? <==> crossBorder.Some?
    ensures crossBorder.Some? ==> && r.crossBorder.value.capacity == crossBorder.value.capacity
                                  && r.crossBorder.value.netImport == r.imported
                                  && r.imported == Min(crossBorder.value.capacity, Max(0.0, missing - r.generation))
    ensures crossBorder.None? ==> r.imported == 0.0
    ensures 0.0 <= r.shortage
    ensures crossBorder.Some? ==> 0.0 <= crossBorder.value.capacity ==>
              && 0.0 <= r.imported
              && r.generation + r.imported + r.shortage == missing
              && (r.shortage > 0.0 ==> && r.generation == TotalMaxNetPower(flexibles)
                                       && r.imported == crossBorder.value.capacity)
    ensures crossBorder.None? ==>
              && r.generation + r.shortage == missing
              && (r.shortage > 0.0 ==> r.generation == TotalMaxNetPower(flexibles))
  {
    var dispatched := if missing > 0.0 then DispatchSources(flexibles, missing)
                      else SourceDispatch(ShutDownAll(flexibles), [], [], [], 0.0);
    var stillMissing := if missing > 0.0 then Max(0.0, missing - dispatched.generation) else missing;
    var importResult := if crossBorder.Some? then ImportAt(crossBorder.value, stillMissing) else (Terminal(0.0, 0.0), 0.0);
    var terminal := if crossBorder.Some? then Some(importResult.0) else None;
    Cover(dispatched.units, dispatched.generation, terminal, importResult.1, Max(0.0, stillMissing - importResult.1))
  }

  /** The deficit branch of `_step`: storage discharges first; if that is not
      enough the flexible sources are dispatched in merit order, otherwise
      they are shut down; then power is imported, and the rest is the
      shortage. */
  function DeficitStep<U(!new)>(fleet: Fleet<U>, io: StorageInterface<U>, consumption: real): (r: StepResult<U>)
    requires FleetValid(fleet) && Inflexible(fleet) < consumption
    ensures SameFleet(r.fleet, fleet) && FleetValid(r.fleet)
    ensures r.fleet.baseloads == fleet.baseloads && r.fleet.intermittents == fleet.intermittents
    ensures r.inflexible == Inflexible(fleet)
    ensures r.charging == 0.0 && r.exported == 0.0
    ensures var d := DischargeStorage(io, fleet.storages, consumption - Inflexible(fleet));
            r.discharging == d.total && r.fleet.storages == d.units
    ensures TotalNetGeneration(r.fleet.flexibles) == r.flexible
    ensures fleet.crossBorder.Some? ==>
              r.imported == Min(fleet.crossBorder.value.capacity,
                                Max(0.0, consumption - r.inflexible - r.discharging - r.flexible))
    ensures fleet.crossBorder.None? ==> r.imported == 0.0
    ensures fleet.crossBorder.Some? ==> r.fleet.crossBorder.value.netImport == r.imported
    ensures Conforms(io) ==> Names(io, r.fleet.storages) == Names(io, fleet.storages)
    ensures Conforms(io) ==> 0.0 <= r.discharging
    ensures var residual := consumption - r.inflexible - r.discharging;
            && (residual > 0.0 ==> && r.fleet.flexibles == DispatchSources(fleet.flexibles, residual).units
                                   && r.flexible == Min(residual, TotalMaxNetPower(fleet.flexibles)))
            && (residual <= 0.0 ==> r.fleet.flexibles == ShutDownAll(fleet.flexibles))
    ensures 0.0 <= r.shortage
    ensures TerminalSound(fleet) ==> 0.0 <= r.imported
    ensures Conforms(io) && TerminalSound(fleet) ==>
              && r.inflexible + r.discharging + r.flexible + r.imported + r.shortage == consumption
              && (r.shortage > 0.0 ==> && r.flexible == TotalMaxNetPower(fleet.flexibles)
                                       && (fleet.crossBorder.Some? ==> r.imported == fleet.crossBorder.value.capacity))
  {
    var inflexible := Inflexible(fleet);
    var deficit := consumption - inflexible;
    var discharged := DischargeStorage(io, fleet.storages, deficit);
    var missing := Max(0.0, deficit - discharged.total);
    var cover := CoverDeficit(fleet.flexibles, fleet.crossBorder, missing);
    var fleet' := fleet.(flexibles := cover.flexibles, storages := discharged.units, crossBorder := cover.crossBorder);
    StepResult(fleet', inflexible, 0.0, 0.0, discharged.total, cover.generation, cover.imported, cover.shortage)
  }

  /** `Scenario._step`: the surplus branch when the inflexible sources cover
      the consumption, the deficit branch otherwise. */
  function Step<U(!new)>(fleet: Fleet<U>, io: StorageInterface<U>, consumption: real): (r: StepResult<U>)
    requires FleetValid(fleet)
    ensures SameFleet(r.fleet, fleet) && FleetValid(r.fleet)
    ensures r.fleet.baseloads == fleet.baseloads && r.fleet.intermittents == fleet.intermittents
    ensures consumption <= Inflexible(fleet) ==> r == SurplusStep(fleet, io, consumption)
    ensures Inflexible(fleet) < consumption ==> r == DeficitStep(fleet, io, consumption)
    ensures TerminalSound(fleet) ==> TerminalSound(r.fleet)
  {
    if Inflexible(fleet) >= consumption then SurplusStep(fleet, io, consumption)
    else DeficitStep(fleet, io, consumption)
  }

  /** The energy balance of a step: the inflexible generation plus
      everything delivered to the grid equals the consumption plus everything
      taken from it, every flow is non-negative, and a step either dumps or
      falls short, never both. */
  predicate Balanced<U>(r: StepResult<U>, consumption: real) {
    && r.inflexible + r.discharging + r.flexible + r.imported + r.shortage
       == consumption + r.charging + r.exported
    && 0.0 <= r.charging && 0.0 <= r.exported && 0.0 <= r.discharging
    && 0.0 <= r.flexible && 0.0 <= r.imported
    && (r.shortage < 0.0 ==> r.discharging == 0.0 && r.flexible == 0.0 && r.imported == 0.0)
    && (r.shortage > 0.0 ==> r.charging == 0.0 && r.exported == 0.0)
  }

  /** A step balances exactly over the reals when storage stays within its
      requests and the terminal's capacity is not negative; the clamps
      `max(0, ...)` of `_step` never bite. */
  lemma StepBalance<U(!new)>(fleet: Fleet<U>, io: StorageInterface<U>, consumption: real)
    requires FleetValid(fleet) && Conforms(io) && TerminalSound(fleet)
    ensures Balanced(Step(fleet, io, consumption), consumption)
  {
    var r := Step(fleet, io, consumption);
    TotalNetGenerationBounds(r.fleet.flexibles);
  }

  // ---- The run --------------------------------------------------------------------

  /** Pass step `i`'s capacity factors down to the intermittent sources. */
  function SetFactors(units: seq<PowerSource>, factors: seq<seq<real>>, i: nat): (r: seq<PowerSource>)
    requires |factors| == |units|
    requires forall k :: 0 <= k < |units| ==> i < |factors[k]| && 0.0 <= factors[k][i] <= 1.0
    ensures SameUnits(r, units)
    ensures forall k :: 0 <= k < |units| ==> r[k] == SetUtilisation(units[k], factors[k][i])
    ensures AllValid(units) ==> AllValid(r)
  {
    seq(|units|, k requires 0 <= k < |units| => SetUtilisation(units[k], factors[k][i]))
  }

  /** Gross consumption in step `i`: the load plus the grid losses. */
  function Consumption<U>(s: Scenario<U>, i: nat): real
    requires i < |s.load|
  {
    s.load[i] * (1.0 + s.losses)
  }

  /** The fleet at the start of step `i`, once the intermittents follow
      their factors for that step. */
  function Prepared<U>(s: Scenario<U>, fleet: Fleet<U>, i: nat): (r: Fleet<U>)
    requires ScenarioValid(s) && i < |s.load|
    requires FleetValid(fleet) && SameFleet(fleet, s.fleet)
    ensures FleetValid(r) && SameFleet(r, s.fleet)
    ensures r.baseloads == fleet.baseloads && r.flexibles == fleet.flexibles
    ensures r.storages == fleet.storages && r.crossBorder == fleet.crossBorder
    ensures SameUnits(r.intermittents, fleet.intermittents)
    ensures forall k :: 0 <= k < |r.intermittents| ==> r.intermittents[k].utilisation == s.factors[k][i]
  {
    fleet.(intermittents := SetFactors(fleet.intermittents, s.factors, i))
  }

  /** The registration of `ScenarioRun`: every source, the storage units and
      the terminal, before the first step. */
  function Registered<U(!new)>(s: Scenario<U>, io: StorageInterface<U>): (r: ScenarioRun)
    ensures r.sourceNames == SourceNames(AllSources(s.fleet))
    ensures r.storageNames == Names(io, s.fleet.storages)
    ensures r.hasCrossBorder == s.fleet.crossBorder.Some?
    ensures r.steps == 0 && Consistent(r) && r.shortage == []
  {
    NewRun(SourceNames(AllSources(s.fleet)), Names(io, s.fleet.storages), s.fleet.crossBorder.Some?)
  }

  /** A step the run took: the fleet it started from, before the factors of
      its step were set, and what it did. */
  datatype Taken<!U> = Taken(before: Fleet<U>, step: StepResult<U>)

  /** Every step of a run starts from a valid fleet with the scenario's
      units. */
  predicate TraceValid<U>(s: Scenario<U>, trace: seq<Taken<U>>) {
    && |trace| <= |s.load|
    && forall j :: 0 <= j < |trace| ==> FleetValid(trace[j].before) && SameFleet(trace[j].before, s.fleet)
  }

  /** The first step starts from the scenario's fleet, and every later one
      from the fleet the previous step left. */
  ghost predicate Chained<U>(s: Scenario<U>, trace: seq<Taken<U>>) {
    && (0 < |trace| ==> trace[0].before == s.fleet)
    && forall j :: 0 < j < |trace| ==> trace[j].before == trace[j - 1].step.fleet
  }

  /** Step `j` of `trace` is what the loop of `Scenario.run` does: it sets
      the factors of step `j` on the fleet it starts from and balances the
      gross consumption of step `j`. */
  ghost predicate Follows<U(!new)>(s: Scenario<U>, io: StorageInterface<U>, trace: seq<Taken<U>>)
    requires ScenarioValid(s) && TraceValid(s, trace)
  {
    forall j :: 0 <= j < |trace| ==>
      trace[j].step == Step(Prepared(s, trace[j].before, j), io, Consumption(s, j))
  }

  /** Taking the next step from a valid fleet keeps a run valid and
      chained. */
  lemma ChainedSnoc<U>(s: Scenario<U>, trace: seq<Taken<U>>, next: Taken<U>)
    requires TraceValid(s, trace) && Chained(s, trace) && |trace| < |s.load|
    requires FleetValid(next.before) && SameFleet(next.before, s.fleet)
    requires next.before == if |trace| == 0 then s.fleet else trace[|trace| - 1].step.fleet
    ensures TraceValid(s, trace + [next]) && Chained(s, trace + [next])
  {
    assert forall j :: 0 <= j < |trace| ==> (trace + [next])[j] == trace[j];
  }

  /** One step of the loop in `Scenario.run`, taken from `fleet` as the
      step after `trace`: the factors of that step are set and its gross
      consumption is balanced. */
  method TakeStep<U(!new)>(s: Scenario<U>, io: StorageInterface<U>, trace: seq<Taken<U>>, fleet: Fleet<U>)
    returns (step: StepResult<U>)
    requires ScenarioValid(s) && TraceValid(s, trace) && Follows(s, io, trace)
    requires |trace| < |s.load| && FleetValid(fleet) && SameFleet(fleet, s.fleet)
    ensures FleetValid(step.fleet) && SameFleet(step.fleet, s.fleet)
    ensures TraceValid(s, trace + [Taken(fleet, step)]) && Follows(s, io, trace + [Taken(fleet, step)])
  {
    step := Step(Prepared(s, fleet, |trace|), io, Consumption(s, |trace|));
    var t := trace + [Taken(fleet, step)];
    forall j | 0 <= j < |t|
      ensures FleetValid(t[j].before) && SameFleet(t[j].before, s.fleet)
      ensures t[j].step == Step(Prepared(s, t[j].before, j), io, Consumption(s, j))
    {
      if j < |trace| {
        assert t[j] == trace[j];
      }
    }
  }

  /** The end of one pass of the loop in `Scenario.run`: sweep the
      registered objects in the state the step left them, in registration
      order, then append the step's shortage. */
  function Record<U>(io: StorageInterface<U>, run: ScenarioRun, fleet: Fleet<U>, shortage: real): (r: ScenarioRun)
    requires |AllSources(fleet)| == |run.sourceNames| && |fleet.storages| == |run.storageNames|
    requires fleet.crossBorder.Some? <==> run.hasCrossBorder
    ensures Consistent(run) ==> Consistent(r)
  {
    var terminal := if fleet.crossBorder.Some? then Some(fleet.crossBorder.value.netImport) else None;
    SweepReadingsConsistent(run, NetGenerations(AllSources(fleet)), Outputs(io, fleet.storages), terminal);
    RecordShortage(SweepReadings(run, NetGenerations(AllSources(fleet)), Outputs(io, fleet.storages), terminal), shortage)
  }

  /** What the statistics hold after the steps of `trace`: the registration,
      one sweep per step, and the shortage and the terminal's net import of
      every step, in order. */
  ghost predicate Recorded<U>(s: Scenario<U>, io: StorageInterface<U>, run: ScenarioRun, trace: seq<Taken<U>>) {
    && run.sourceNames == SourceNames(AllSources(s.fleet))
    && run.storageNames == Names(io, s.fleet.storages)
    && run.hasCrossBorder == s.fleet.crossBorder.Some?
    && run.steps == |trace| && Consistent(run)
    && |run.shortage| == |trace|
    && (forall j :: 0 <= j < |trace| ==> run.shortage[j] == trace[j].step.shortage)
    && (run.hasCrossBorder ==>
          forall j :: 0 <= j < |trace| ==>
            trace[j].step.fleet.crossBorder.Some? && run.netImport[j] == trace[j].step.fleet.crossBorder.value.netImport)
  }

  /** Recording a step extends what the statistics hold by that step. */
  lemma RecordExtends<U>(s: Scenario<U>, io: StorageInterface<U>, run: ScenarioRun, trace: seq<Taken<U>>, next: Taken<U>)
    requires Recorded(s, io, run, trace) && SameFleet(next.step.fleet, s.fleet)
    ensures |AllSources(next.step.fleet)| == |run.sourceNames| && |next.step.fleet.storages| == |run.storageNames|
    ensures next.step.fleet.crossBorder.Some? <==> run.hasCrossBorder
    ensures Recorded(s, io, Record(io, run, next.step.fleet, next.step.shortage), trace + [next])
  {
    var fleet := next.step.fleet;
    var terminal := if fleet.crossBorder.Some? then Some(fleet.crossBorder.value.netImport) else None;
    var swept := SweepReadings(run, NetGenerations(AllSources(fleet)), Outputs(io, fleet.storages), terminal);
    var r := Record(io, run, fleet, next.step.shortage);
    var t := trace + [next];
    assert r == RecordShortage(swept, next.step.shortage);
    assert r.shortage == run.shortage + [next.step.shortage];
    forall j | 0 <= j < |t|
      ensures r.shortage[j] == t[j].step.shortage
    {
      if j < |trace| {
        assert t[j] == trace[j];
      }
    }
    if run.hasCrossBorder {
      assert r.netImport == run.netImport + [fleet.crossBorder.value.netImport];
      forall j | 0 <= j < |t|
        ensures t[j].step.fleet.crossBorder.Some? && r.netImport[j] == t[j].step.fleet.crossBorder.value.netImport
      {
        if j < |trace| {
          assert t[j] == trace[j];
        }
      }
    }
  }

  /** The net generation of every registered source after each step of
      `trace`, in registration order: what each sweep reads. */
  function GenerationReadings<U>(trace: seq<Taken<U>>): (r: seq<seq<real>>)
    ensures |r| == |trace|
    ensures forall j :: 0 <= j < |trace| ==> r[j] == NetGenerations(AllSources(trace[j].step.fleet))
  {
    seq(|trace|, j requires 0 <= j < |trace| => NetGenerations(AllSources(trace[j].step.fleet)))
  }

  /** The output of every storage unit after each step of `trace`. */
  function OutputReadings<U>(io: StorageInterface<U>, trace: seq<Taken<U>>): (r: seq<seq<real>>)
    ensures |r| == |trace|
    ensures forall j :: 0 <= j < |trace| ==> r[j] == Outputs(io, trace[j].step.fleet.storages)
  {
    seq(|trace|, j requires 0 <= j < |trace| => Outputs(io, trace[j].step.fleet.storages))
  }

  /** The history maps hold exactly the sweeps after the steps of `trace`,
      starting from nothing. */
  predicate HistoriesRecorded<U>(io: StorageInterface<U>, run: ScenarioRun, trace: seq<Taken<U>>) {
    && run.sourceGeneration == AppendAll(map[], run.sourceNames, GenerationReadings(trace))
    && run.storageOutput == AppendAll(map[], run.storageNames, OutputReadings(io, trace))
  }

  /** A step more adds that step's readings. */
  lemma ReadingsSnoc<U>(io: StorageInterface<U>, trace: seq<Taken<U>>, next: Taken<U>)
    ensures GenerationReadings(trace + [next]) == GenerationReadings(trace) + [NetGenerations(AllSources(next.step.fleet))]
    ensures OutputReadings(io, trace + [next]) == OutputReadings(io, trace) + [Outputs(io, next.step.fleet.storages)]
  {
    var t := trace + [next];
    assert forall j :: 0 <= j < |trace| ==> t[j] == trace[j];
  }

  /** Recording a step appends that step's readings to every history. */
  lemma HistoriesExtend<U>(io: StorageInterface<U>, run: ScenarioRun, trace: seq<Taken<U>>, next: Taken<U>)
    requires HistoriesRecorded(io, run, trace)
    requires |AllSources(next.step.fleet)| == |run.sourceNames| && |next.step.fleet.storages| == |run.storageNames|
    requires next.step.fleet.crossBorder.Some? <==> run.hasCrossBorder
    ensures HistoriesRecorded(io, Record(io, run, next.step.fleet, next.step.shortage), trace + [next])
  {
    var fleet := next.step.fleet;
    var gens, outs := NetGenerations(AllSources(fleet)), Outputs(io, fleet.storages);
    ReadingsSnoc(io, trace, next);
    AppendAllSnoc(map[], run.sourceNames, GenerationReadings(trace), gens);
    AppendAllSnoc(map[], run.storageNames, OutputReadings(io, trace), outs);
  }

  /** What the histories of a recorded run hold: under every name, the
      readings listed under it, step by step; with distinct names, a
      registered source's history is its net generation after each step and
      a storage unit's history its output after each step. */
  lemma RecordedHistories<U(!new)>(s: Scenario<U>, io: StorageInterface<U>, run: ScenarioRun, trace: seq<Taken<U>>, name: string)
    requires ScenarioValid(s) && TraceValid(s, trace) && Follows(s, io, trace)
    requires run.sourceNames == SourceNames(AllSources(s.fleet)) && run.storageNames == Names(io, s.fleet.storages)
    requires HistoriesRecorded(io, run, trace)
    ensures Lookup(run.sourceGeneration, name) == PicksAll(run.sourceNames, GenerationReadings(trace), name)
    ensures Lookup(run.storageOutput, name) == PicksAll(run.storageNames, OutputReadings(io, trace), name)
    ensures forall k :: 0 <= k < |run.sourceNames| && Distinct(run.sourceNames) && name == run.sourceNames[k] ==>
              Lookup(run.sourceGeneration, name) == Column(GenerationReadings(trace), k)
    ensures forall k :: 0 <= k < |run.storageNames| && Distinct(run.storageNames) && name == run.storageNames[k] ==>
              Lookup(run.storageOutput, name) == Column(OutputReadings(io, trace), k)
  {
    var gens, outs := GenerationReadings(trace), OutputReadings(io, trace);
    ReadingsFitRegistration(s, io, trace);
    AppendAllLookup(map[], run.sourceNames, gens, name);
    AppendAllLookup(map[], run.storageNames, outs, name);
    forall k | 0 <= k < |run.sourceNames| && Distinct(run.sourceNames) && name == run.sourceNames[k]
      ensures PicksAll(run.sourceNames, gens, name) == Column(gens, k)
    {
      PicksAllDistinct(run.sourceNames, gens, k);
    }
    forall k | 0 <= k < |run.storageNames| && Distinct(run.storageNames) && name == run.storageNames[k]
      ensures PicksAll(run.storageNames, outs, name) == Column(outs, k)
    {
      PicksAllDistinct(run.storageNames, outs, k);
    }
  }

  /** Every step's readings hold one value per registered object. */
  lemma ReadingsFitRegistration<U(!new)>(s: Scenario<U>, io: StorageInterface<U>, trace: seq<Taken<U>>)
    requires ScenarioValid(s) && TraceValid(s, trace) && Follows(s, io, trace)
    ensures forall t :: 0 <= t < |trace| ==> |GenerationReadings(trace)[t]| == |SourceNames(AllSources(s.fleet))|
    ensures forall t :: 0 <= t < |trace| ==> |OutputReadings(io, trace)[t]| == |Names(io, s.fleet.storages)|
  {
    StepsKeepFleet(s, io, trace);
  }

  /** Every step of a run leaves a fleet with the scenario's units. */
  lemma StepsKeepFleet<U(!new)>(s: Scenario<U>, io: StorageInterface<U>, trace: seq<Taken<U>>)
    requires ScenarioValid(s) && TraceValid(s, trace) && Follows(s, io, trace)
    ensures forall j :: 0 <= j < |trace| ==> SameFleet(trace[j].step.fleet, s.fleet)
  {
    forall j | 0 <= j < |trace|
      ensures SameFleet(trace[j].step.fleet, s.fleet)
    {
      var prepared := Prepared(s, trace[j].before, j);
      assert trace[j].step == Step(prepared, io, Consumption(s, j));
    }
  }

  /** The state of the loop in `Scenario.run` after the steps of `trace`:
      the steps follow the loop, `fleet` is where the last one left the
      fleet, and the statistics hold every step. */
  ghost predicate Reached<U(!new)>(s: Scenario<U>, io: StorageInterface<U>, run: ScenarioRun,
                                   trace: seq<Taken<U>>, fleet: Fleet<U>)
    requires ScenarioValid(s)
  {
    && TraceValid(s, trace) && Chained(s, trace) && Follows(s, io, trace)
    && fleet == (if |trace| == 0 then s.fleet else trace[|trace| - 1].step.fleet)
    && FleetValid(fleet) && SameFleet(fleet, s.fleet)
    && Recorded(s, io, run, trace) && HistoriesRecorded(io, run, trace)
  }

  /** Before the first step the loop has registered everything and recorded
      nothing. */
  lemma ReachedStart<U(!new)>(s: Scenario<U>, io: StorageInterface<U>)
    requires ScenarioValid(s)
    ensures Reached(s, io, Registered(s, io), [], s.fleet)
  {
  }

  /** One pass of the loop in `Scenario.run`: step, sweep, record. */
  method Advance<U(!new)>(s: Scenario<U>, io: StorageInterface<U>, run: ScenarioRun, trace: seq<Taken<U>>, fleet: Fleet<U>)
    returns (run': ScenarioRun, trace': seq<Taken<U>>, fleet': Fleet<U>)
    requires ScenarioValid(s) && Reached(s, io, run, trace, fleet) && |trace| < |s.load|
    ensures Reached(s, io, run', trace', fleet') && |trace'| == |trace| + 1
  {
    var step := TakeStep(s, io, trace, fleet);
    ChainedSnoc(s, trace, Taken(fleet, step));
    RecordExtends(s, io, run, trace, Taken(fleet, step));
    HistoriesExtend(io, run, trace, Taken(fleet, step));
    run' := Record(io, run, step.fleet, step.shortage);
    trace' := trace + [Taken(fleet, step)];
    fleet' := step.fleet;
  }

  /** `Scenario.run`: register every source, the storage units and the
      terminal, then for every load entry set the intermittents' factors,
      take a step, sweep the statistics and record the shortage. Besides the
      statistics the method returns the steps it took, so that what it
      recorded can be stated. */
  method RunScenario<U(!new)>(s: Scenario<U>, io: StorageInterface<U>) returns (run: ScenarioRun, trace: seq<Taken<U>>)
    requires ScenarioValid(s)
    ensures |trace| == NumSteps(s) && TraceValid(s, trace) && Chained(s, trace) && Follows(s, io, trace)
    ensures run.sourceNames == SourceNames(AllSources(s.fleet))
    ensures run.storageNames == Names(io, s.fleet.storages)
    ensures run.hasCrossBorder == s.fleet.crossBorder.Some?
    ensures run.steps == NumSteps(s) && Consistent(run)
    ensures |run.shortage| == |trace| && forall j :: 0 <= j < |trace| ==> run.shortage[j] == trace[j].step.shortage
    ensures run.hasCrossBorder ==>
              forall j :: 0 <= j < |trace| ==> run.netImport[j] == trace[j].step.fleet.crossBorder.value.netImport
    ensures HistoriesRecorded(io, run, trace)
  {
    run := Registered(s, io);
    trace := [];
    var fleet := s.fleet;
    ReachedStart(s, io);
    for i := 0 to |s.load|
      invariant |trace| == i && Reached(s, io, run, trace, fleet)
    {
      run, trace, fleet := Advance(s, io, run, trace, fleet);
    }
  }

  /** Every step of a run balances when storage stays within its requests
      and the terminal's capacity is not negative. */
  lemma TraceBalanced<U(!new)>(s: Scenario<U>, io: StorageInterface<U>, trace: seq<Taken<U>>)
    requires ScenarioValid(s) && TraceValid(s, trace) && Follows(s, io, trace)
    requires Conforms(io) && TerminalSound(s.fleet)
    ensures forall j :: 0 <= j < |trace| ==> Balanced(trace[j].step, Consumption(s, j))
  {
    forall j | 0 <= j < |trace|
      ensures Balanced(trace[j].step, Consumption(s, j))
    {
      StepBalance(Prepared(s, trace[j].before, j), io, Consumption(s, j));
    }
  }

  // ---- A fleet of baseload sources only ------------------------------------------

  /** Only baseload sources: nothing to store, dispatch or trade. */
  predicate BaseloadOnly<U>(fleet: Fleet<U>) {
    && fleet.intermittents == [] && fleet.flexibles == [] && fleet.storages == []
    && fleet.crossBorder.None?
  }

  /** With nothing to balance against, a step's shortage is the raw
      imbalance: consumption minus the baseload's net generation, negative
      when that is a dump. */
  lemma BaseloadOnlyStep<U(!new)>(fleet: Fleet<U>, io: StorageInterface<U>, consumption: real)
    requires FleetValid(fleet) && BaseloadOnly(fleet)
    ensures Step(fleet, io, consumption).shortage == consumption - TotalNetGeneration(fleet.baseloads)
  {
    assert Inflexible(fleet) == TotalNetGeneration(fleet.baseloads);
    if Inflexible(fleet) < consumption {
      assert DischargeStorage(io, [], consumption - Inflexible(fleet)).total == 0.0;
      assert TotalMaxNetPower(fleet.flexibles) == 0.0;
    } else {
      assert ChargeStorage(io, [], Inflexible(fleet) - consumption).total == 0.0;
    }
  }

  /** Every step of a baseload-only run records the raw imbalance of its
      gross consumption. */
  lemma BaseloadOnlyRun<U(!new)>(s: Scenario<U>, io: StorageInterface<U>, trace: seq<Taken<U>>)
    requires ScenarioValid(s) && TraceValid(s, trace) && Follows(s, io, trace) && BaseloadOnly(s.fleet)
    ensures forall j :: 0 <= j < |trace| ==>
              trace[j].step.shortage == Consumption(s, j) - TotalNetGeneration(s.fleet.baseloads)
  {
    forall j | 0 <= j < |trace|
      ensures trace[j].step.shortage == Consumption(s, j) - TotalNetGeneration(s.fleet.baseloads)
    {
      var prepared := Prepared(s, trace[j].before, j);
      assert |prepared.intermittents| == 0 && |prepared.flexibles| == 0 && |prepared.storages| == 0;
      BaseloadOnlyStep(prepared, io, Consumption(s, j));
    }
  }

  /** A 1000 MW plant with no self-consumption at capacity factor 1 delivers
      1000 MW net. */
  lemma NuclearAtFullOutput(nuclear: PowerSource)
    requires nuclear == PowerSource("nuclear", 1000.0, 0.0, 1.0)
    ensures NetGenerations([nuclear]) == [1000.0]
    ensures TotalNetGeneration([nuclear]) == 1000.0
  {
    assert nuclear.NetGeneration() == 1000.0;
  }

  /** A 1000 MW nuclear plant at full output, no losses, and loads of 500,
      1000 and 1500 MW: the run dumps 500 MW, balances exactly, then falls
      500 MW short. */
  lemma NuclearOnlyExample<U(!new)>(s: Scenario<U>, io: StorageInterface<U>, trace: seq<Taken<U>>, nuclear: PowerSource)
    requires nuclear == PowerSource("nuclear", 1000.0, 0.0, 1.0)
    requires ScenarioValid(s) && s.load == [500.0, 1000.0, 1500.0] && s.losses == 0.0
    requires s.fleet == Fleet([nuclear], [], [], [], None)
    requires |trace| == 3 && TraceValid(s, trace) && Follows(s, io, trace)
    ensures trace[0].step.shortage == -500.0 && trace[1].step.shortage == 0.0 && trace[2].step.shortage == 500.0
  {
    NuclearAtFullOutput(nuclear);
    assert Consumption(s, 0) == 500.0 && Consumption(s, 1) == 1000.0 && Consumption(s, 2) == 1500.0;
    BaseloadOnlyRun(s, io, trace);
  }

  /** In a baseload-only run every step leaves the baseloads as the only
      sources, so every sweep reads their net generation. */
  lemma BaseloadOnlyReadings<U(!new)>(s: Scenario<U>, io: StorageInterface<U>, trace: seq<Taken<U>>)
    requires ScenarioValid(s) && TraceValid(s, trace) && Follows(s, io, trace) && BaseloadOnly(s.fleet)
    ensures forall j :: 0 <= j < |trace| ==> GenerationReadings(trace)[j] == NetGenerations(s.fleet.baseloads)
  {
    StepsKeepFleet(s, io, trace);
    forall j | 0 <= j < |trace|
      ensures AllSources(trace[j].step.fleet) == s.fleet.baseloads
    {
      var f := trace[j].step.fleet;
      assert |f.intermittents| == 0 && |f.flexibles| == 0;
      assert f.baseloads + f.intermittents + f.flexibles == f.baseloads;
    }
  }

  /** With a single distinct source, its recorded history is the column of
      its readings. */
  lemma NuclearHistoryIsColumn<U(!new)>(s: Scenario<U>, io: StorageInterface<U>, run: ScenarioRun, trace: seq<Taken<U>>,
                                        nuclear: PowerSource)
    requires nuclear.name == "nuclear"
    requires ScenarioValid(s) && s.fleet == Fleet([nuclear], [], [], [], None)
    requires TraceValid(s, trace) && Follows(s, io, trace)
    requires run.sourceNames == SourceNames(AllSources(s.fleet)) && run.storageNames == Names(io, s.fleet.storages)
    requires HistoriesRecorded(io, run, trace)
    ensures forall j :: 0 <= j < |trace| ==> |GenerationReadings(trace)[j]| == 1
    ensures Lookup(run.sourceGeneration, "nuclear") == Column(GenerationReadings(trace), 0)
  {
    assert AllSources(s.fleet) == [nuclear];
    assert run.sourceNames == ["nuclear"];
    RecordedHistories(s, io, run, trace, "nuclear");
  }

  /** Three readings of 1000 MW each make the column [1000, 1000, 1000]. */
  lemma FullOutputColumn(readings: seq<seq<real>>)
    requires |readings| == 3 && forall j :: 0 <= j < 3 ==> readings[j] == [1000.0]
    ensures Column(readings, 0) == [1000.0, 1000.0, 1000.0]
  {
    var h := Column(readings, 0);
    assert h[0] == 1000.0 && h[1] == 1000.0 && h[2] == 1000.0;
  }

  /** The same nuclear-only run records 1000 MW for the plant in each of the
      three steps, 3000 MWh in all: the plant runs at full output whatever
      the load, and its generation is recorded before any dump is taken
      off. */
  lemma NuclearOnlyGeneration<U(!new)>(s: Scenario<U>, io: StorageInterface<U>, run: ScenarioRun, trace: seq<Taken<U>>,
                                       nuclear: PowerSource)
    requires nuclear == PowerSource("nuclear", 1000.0, 0.0, 1.0)
    requires ScenarioValid(s) && s.fleet == Fleet([nuclear], [], [], [], None)
    requires |trace| == 3 && TraceValid(s, trace) && Follows(s, io, trace)
    requires run.sourceNames == SourceNames(AllSources(s.fleet)) && run.storageNames == Names(io, s.fleet.storages)
    requires HistoriesRecorded(io, run, trace)
    ensures Lookup(run.sourceGeneration, "nuclear") == [1000.0, 1000.0, 1000.0]
    ensures ComputeGeneration(run, "nuclear") == 3000.0
  {
    NuclearHistoryIsColumn(s, io, run, trace, nuclear);
    NuclearAtFullOutput(nuclear);
    BaseloadOnlyReadings(s, io, trace);
    FullOutputColumn(GenerationReadings(trace));
    SumThree(1000.0, 1000.0, 1000.0);
  }

  /** The nuclear-only scenario run end to end: the shortages are -500, 0 and
      500 MW and the plant's recorded generation is 3000 MWh. */
  method NuclearOnlyRun<U(!new)>(s: Scenario<U>, io: StorageInterface<U>, nuclear: PowerSource)
    returns (run: ScenarioRun)
    requires nuclear == PowerSource("nuclear", 1000.0, 0.0, 1.0)
    requires ScenarioValid(s) && s.load == [500.0, 1000.0, 1500.0] && s.losses == 0.0
    requires s.fleet == Fleet([nuclear], [], [], [], None)
    ensures run.steps == 3 && run.shortage == [-500.0, 0.0, 500.0]
    ensures ComputeGeneration(run, "nuclear") == 3000.0
  {
    var trace;
    run, trace := RunScenario(s, io);
    NuclearOnlyExample(s, io, trace, nuclear);
    NuclearOnlyGeneration(s, io, run, trace, nuclear);
  }
}
