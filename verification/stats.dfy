/** The statistics of one scenario run (`ScenarioRun` in
    `electric_waltz/scenario.py`). A run knows its registered power sources,
    storage units and cross-border terminal by name; every sweep appends one
    reading per registered object, and the scenario appends one shortage per
    step. The totals and step counts are sign-filtered reductions over those
    histories. */
module Stats {
  import opened Common
  import opened Reductions
  import opened History
  import opened Sources
  import opened StorageUnits
  import opened CrossBorder

  datatype ScenarioRun = ScenarioRun(
    sourceNames: seq<string>,          // registered power sources, in order
    storageNames: seq<string>,         // registered storage units, in order
    hasCrossBorder: bool,              // whether a terminal is registered
    steps: nat,                        // sweeps so far
    sourceGeneration: Histories<string>,
    storageOutput: Histories<string>,
    netImport: seq<real>,              // one entry per sweep when a terminal is registered
    shortage: seq<real>                // shortage (positive) or dump (negative), per step
  )

  /** Only listed names have a history, and a name listed n times holds n
      readings per sweep. */
  predicate Shaped(m: Histories<string>, names: seq<string>, steps: nat) {
    && (forall name :: name in m ==> name in names)
    && (forall name :: name in names ==> |Lookup(m, name)| == ReadingsAfter(multiset(names)[name], steps))
  }

  /** The number of readings after `sweeps` sweeps that take `perSweep`
      readings each. */
  function ReadingsAfter(perSweep: nat, sweeps: nat): (n: nat)
    ensures perSweep == 1 ==> n == sweeps
    ensures 1 <= perSweep ==> sweeps <= n
  {
    if sweeps == 0 then 0 else ReadingsAfter(perSweep, sweeps - 1) + perSweep
  }

  /** The shape every run keeps: both history maps are shaped by their
      registrations, and the terminal, if any, has one reading per sweep. */
  predicate Consistent(run: ScenarioRun) {
    && Shaped(run.sourceGeneration, run.sourceNames, run.steps)
    && Shaped(run.storageOutput, run.storageNames, run.steps)
    && |run.netImport| == (if run.hasCrossBorder then run.steps else 0)
  }

  /** A new run has recorded nothing. */
  function NewRun(sourceNames: seq<string>, storageNames: seq<string>, hasCrossBorder: bool): (r: ScenarioRun)
    ensures r.sourceNames == sourceNames && r.storageNames == storageNames
    ensures r.hasCrossBorder == hasCrossBorder
    ensures r.steps == 0 && Consistent(r)
    ensures forall name :: Lookup(r.sourceGeneration, name) == [] && Lookup(r.storageOutput, name) == []
    ensures r.netImport == [] && r.shortage == []
  {
    ScenarioRun(sourceNames, storageNames, hasCrossBorder, 0, map[], map[], [], [])
  }

  // ---- Sweeps -----------------------------------------------------------------

  /** One sweep, given the readings: the net generation of every registered
      source and the output of every storage unit, in registration order,
      and the terminal's net import when a terminal is registered. Each
      reading is appended under its object's name, in order. */
  function SweepReadings(run: ScenarioRun, generation: seq<real>, outputs: seq<real>, netImport: Option<real>): (r: ScenarioRun)
    requires |generation| == |run.sourceNames| && |outputs| == |run.storageNames|
    requires netImport.Some? <==> run.hasCrossBorder
    ensures r.steps == run.steps + 1
    ensures r.sourceNames == run.sourceNames && r.storageNames == run.storageNames
    ensures r.hasCrossBorder == run.hasCrossBorder
    ensures r.sourceGeneration == AppendEach(run.sourceGeneration, run.sourceNames, generation)
    ensures r.storageOutput == AppendEach(run.storageOutput, run.storageNames, outputs)
    ensures netImport.Some? ==> r.netImport == run.netImport + [netImport.value]
    ensures netImport.None? ==> r.netImport == run.netImport
    ensures r.shortage == run.shortage
  {
    run.(
      steps := run.steps + 1,
      sourceGeneration := AppendEach(run.sourceGeneration, run.sourceNames, generation),
      storageOutput := AppendEach(run.storageOutput, run.storageNames, outputs),
      netImport := if netImport.Some? then run.netImport + [netImport.value] else run.netImport)
  }

  /** What a sweep does to the histories: the names with a history gain the
      registered ones, and each name's history grows by exactly the readings
      listed under it, in registration order. */
  lemma SweepReadingsHistories(run: ScenarioRun, generation: seq<real>, outputs: seq<real>, netImport: Option<real>, name: string)
    requires |generation| == |run.sourceNames| && |outputs| == |run.storageNames|
    requires netImport.Some? <==> run.hasCrossBorder
    ensures var r := SweepReadings(run, generation, outputs, netImport);
            && (name in r.sourceGeneration <==> name in run.sourceGeneration || name in run.sourceNames)
            && (name in r.storageOutput <==> name in run.storageOutput || name in run.storageNames)
            && Lookup(r.sourceGeneration, name)
               == Lookup(run.sourceGeneration, name) + Picks(run.sourceNames, generation, name)
            && Lookup(r.storageOutput, name)
               == Lookup(run.storageOutput, name) + Picks(run.storageNames, outputs, name)
  {
    AppendEachLookup(run.sourceGeneration, run.sourceNames, generation, name);
    AppendEachLookup(run.storageOutput, run.storageNames, outputs, name);
  }

  /** `ScenarioRun.sweep`: read the registered objects' current state. The
      objects passed are the registered ones, in registration order. */
  function Sweep<U>(run: ScenarioRun, sources: seq<PowerSource>, io: StorageInterface<U>, storages: seq<U>,
                    terminal: Option<Terminal>): (r: ScenarioRun)
    requires SourceNames(sources) == run.sourceNames
    requires Names(io, storages) == run.storageNames
    requires terminal.Some? <==> run.hasCrossBorder
    ensures r.steps == run.steps + 1 && r.shortage == run.shortage
    ensures r.sourceNames == run.sourceNames && r.storageNames == run.storageNames
    ensures r.hasCrossBorder == run.hasCrossBorder
    ensures terminal.Some? ==> r.netImport == run.netImport + [terminal.value.netImport]
    ensures terminal.None? ==> r.netImport == run.netImport
    ensures Consistent(run) ==> Consistent(r)
  {
    SweepReadingsConsistent(run, NetGenerations(sources), Outputs(io, storages),
                            if terminal.Some? then Some(terminal.value.netImport) else None);
    SweepReadings(run, NetGenerations(sources), Outputs(io, storages),
                  if terminal.Some? then Some(terminal.value.netImport) else None)
  }

  /** With distinct names, a sweep appends to each object's history exactly
      that object's reading. */
  lemma SweepAppendsReadings<U>(run: ScenarioRun, sources: seq<PowerSource>, io: StorageInterface<U>, storages: seq<U>,
                                terminal: Option<Terminal>, i: nat, j: nat)
    requires SourceNames(sources) == run.sourceNames && Distinct(run.sourceNames)
    requires Names(io, storages) == run.storageNames && Distinct(run.storageNames)
    requires terminal.Some? <==> run.hasCrossBorder
    requires i < |sources| && j < |storages|
    ensures var r := Sweep(run, sources, io, storages, terminal);
            && Lookup(r.sourceGeneration, sources[i].name)
               == Lookup(run.sourceGeneration, sources[i].name) + [sources[i].NetGeneration()]
            && Lookup(r.storageOutput, io.name(storages[j]))
               == Lookup(run.storageOutput, io.name(storages[j])) + [io.output(storages[j])]
  {
    SweepReadingsHistories(run, NetGenerations(sources), Outputs(io, storages),
                           if terminal.Some? then Some(terminal.value.netImport) else None, sources[i].name);
    SweepReadingsHistories(run, NetGenerations(sources), Outputs(io, storages),
                           if terminal.Some? then Some(terminal.value.netImport) else None, io.name(storages[j]));
    PicksDistinct(run.sourceNames, NetGenerations(sources), i);
    PicksDistinct(run.storageNames, Outputs(io, storages), j);
  }

  /** The scenario appends the step's shortage after the sweep. */
  function RecordShortage(run: ScenarioRun, shortage: real): (r: ScenarioRun)
    ensures r.shortage == run.shortage + [shortage]
    ensures r.(shortage := run.shortage) == run
    ensures Consistent(run) ==> Consistent(r)
  {
    run.(shortage := run.shortage + [shortage])
  }

  /** Sweeps keep the shape of a run. */
  lemma SweepReadingsConsistent(run: ScenarioRun, generation: seq<real>, outputs: seq<real>, netImport: Option<real>)
    requires |generation| == |run.sourceNames| && |outputs| == |run.storageNames|
    requires netImport.Some? <==> run.hasCrossBorder
    ensures Consistent(run) ==> Consistent(SweepReadings(run, generation, outputs, netImport))
  {
    if Consistent(run) {
      SweepKeepsShapes(run, generation, outputs, netImport);
    }
  }

  lemma SweepKeepsShapes(run: ScenarioRun, generation: seq<real>, outputs: seq<real>, netImport: Option<real>)
    requires Consistent(run)
    requires |generation| == |run.sourceNames| && |outputs| == |run.storageNames|
    requires netImport.Some? <==> run.hasCrossBorder
    ensures Shaped(SweepReadings(run, generation, outputs, netImport).sourceGeneration, run.sourceNames, run.steps + 1)
    ensures Shaped(SweepReadings(run, generation, outputs, netImport).storageOutput, run.storageNames, run.steps + 1)
  {
    AppendKeepsShape(run.sourceGeneration, run.sourceNames, generation, run.steps);
    AppendKeepsShape(run.storageOutput, run.storageNames, outputs, run.steps);
  }

  /** Appending one reading per listed name keeps a history map shaped, one
      sweep further. */
  lemma AppendKeepsShape(m: Histories<string>, names: seq<string>, values: seq<real>, steps: nat)
    requires |names| == |values| && Shaped(m, names, steps)
    ensures Shaped(AppendEach(m, names, values), names, steps + 1)
  {
    var r := AppendEach(m, names, values);
    forall name | name in r
      ensures name in names
    {
      AppendEachLookup(m, names, values, name);
    }
    forall name | name in names
      ensures |Lookup(r, name)| == ReadingsAfter(multiset(names)[name], steps + 1)
    {
      AppendEachLookup(m, names, values, name);
      PicksCount(names, values, name);
    }
  }

  // ---- Totals -----------------------------------------------------------------

  /** `compute_generation`: the energy a source generated over the run. */
  function ComputeGeneration(run: ScenarioRun, name: string): (e: real)
    ensures name !in run.sourceGeneration ==> e == 0.0
  {
    Sum(Lookup(run.sourceGeneration, name))
  }

  /** Energy absorbed by the storage units listed, summed per listed name. */
  function ChargedOver(m: Histories<string>, names: seq<string>): (e: real)
    ensures 0.0 <= e
  {
    if |names| == 0 then 0.0 else -SumNegative(Lookup(m, names[0])) + ChargedOver(m, names[1..])
  }

  /** Energy delivered by the storage units listed, summed per listed name. */
  function DischargedOver(m: Histories<string>, names: seq<string>): (e: real)
    ensures 0.0 <= e
  {
    if |names| == 0 then 0.0 else SumPositive(Lookup(m, names[0])) + DischargedOver(m, names[1..])
  }

  /** `compute_total_charging`: the negative storage outputs, negated. A
      name registered twice is counted twice. */
  function ComputeTotalCharging(run: ScenarioRun): (e: real)
    ensures 0.0 <= e
    ensures |run.storageNames| == 1 ==> e == -SumNegative(Lookup(run.storageOutput, run.storageNames[0]))
  {
    assert |run.storageNames| == 1 ==> ChargedOver(run.storageOutput, run.storageNames[1..]) == 0.0;
    ChargedOver(run.storageOutput, run.storageNames)
  }

  /** `compute_total_discharging`: the positive storage outputs. */
  function ComputeTotalDischarging(run: ScenarioRun): (e: real)
    ensures 0.0 <= e
    ensures |run.storageNames| == 1 ==> e == SumPositive(Lookup(run.storageOutput, run.storageNames[0]))
  {
    assert |run.storageNames| == 1 ==> DischargedOver(run.storageOutput, run.storageNames[1..]) == 0.0;
    DischargedOver(run.storageOutput, run.storageNames)
  }

  /** `compute_total_dump`: the negative shortages, negated. */
  function ComputeTotalDump(run: ScenarioRun): (e: real)
    ensures 0.0 <= e
  {
    -SumNegative(run.shortage)
  }

  /** `compute_total_export`: the negative net imports, negated. */
  function ComputeTotalExport(run: ScenarioRun): (e: real)
    ensures 0.0 <= e
  {
    -SumNegative(run.netImport)
  }

  /** `compute_total_import`: the positive net imports. */
  function ComputeTotalImport(run: ScenarioRun): (e: real)
    ensures 0.0 <= e
  {
    SumPositive(run.netImport)
  }

  /** `compute_total_shortage`: the positive shortages. */
  function ComputeTotalShortage(run: ScenarioRun): (e: real)
    ensures 0.0 <= e
  {
    SumPositive(run.shortage)
  }

  // ---- Step counts --------------------------------------------------------------

  /** Steps in which the shortage, net import or generation has one sign. */
  function CountDumpSteps(run: ScenarioRun): (n: nat)
    ensures n <= |run.shortage|
  {
    CountNegative(run.shortage)
  }

  function CountShortageSteps(run: ScenarioRun): (n: nat)
    ensures n <= |run.shortage|
  {
    CountPositive(run.shortage)
  }

  function CountExportSteps(run: ScenarioRun): (n: nat)
    ensures n <= |run.netImport|
  {
    CountNegative(run.netImport)
  }

  function CountImportSteps(run: ScenarioRun): (n: nat)
    ensures n <= |run.netImport|
  {
    CountPositive(run.netImport)
  }

  function CountGenerationSteps(run: ScenarioRun, name: string): (n: nat)
    ensures n <= |Lookup(run.sourceGeneration, name)|
  {
    CountPositive(Lookup(run.sourceGeneration, name))
  }

  /** The totals are the two sign parts of the recorded series, and a total
      is non-zero exactly when its step count is. */
  lemma TotalsMatchCounts(run: ScenarioRun, name: string)
    ensures ComputeTotalImport(run) - ComputeTotalExport(run) == Sum(run.netImport)
    ensures ComputeTotalShortage(run) - ComputeTotalDump(run) == Sum(run.shortage)
    ensures ComputeTotalImport(run) > 0.0 <==> CountImportSteps(run) > 0
    ensures ComputeTotalExport(run) > 0.0 <==> CountExportSteps(run) > 0
    ensures ComputeTotalShortage(run) > 0.0 <==> CountShortageSteps(run) > 0
    ensures ComputeTotalDump(run) > 0.0 <==> CountDumpSteps(run) > 0
    ensures ComputeGeneration(run, name) > 0.0 ==> CountGenerationSteps(run, name) > 0
    ensures CountImportSteps(run) + CountExportSteps(run) <= |run.netImport|
    ensures CountShortageSteps(run) + CountDumpSteps(run) <= |run.shortage|
  {
    SignSplit(run.netImport);
    SignSplit(run.shortage);
    PositivePartIff(run.netImport);
    NegativePartIff(run.netImport);
    PositivePartIff(run.shortage);
    NegativePartIff(run.shortage);
    var h := Lookup(run.sourceGeneration, name);
    SignSplit(h);
    PositivePartIff(h);
    CountsWithinLength(run.netImport);
    CountsWithinLength(run.shortage);
  }

  /** The direction a storage unit works in during a step. */
  datatype Direction = Charging | Discharging

  /** A storage output of sign matching direction `d`. */
  predicate Shows(output: real, d: Direction) {
    if d == Charging then output < 0.0 else output > 0.0
  }

  /** Some recorded storage history shows direction `d` at step `t`. Every
      history must reach step `t`. */
  predicate ActiveAt(m: Histories<string>, t: nat, d: Direction)
    requires forall k :: k in m ==> t < |m[k]|
  {
    exists k :: k in m && Shows(m[k][t], d)
  }

  /** The number of steps below `n` in which some history shows direction
      `d`. */
  function CountActiveSteps(m: Histories<string>, n: nat, d: Direction): (c: nat)
    requires forall k :: k in m ==> n <= |m[k]|
    ensures c <= n
  {
    if n == 0 then 0 else CountActiveSteps(m, n - 1, d) + (if ActiveAt(m, n - 1, d) then 1 else 0)
  }

  /** `count_charging_steps`: the steps in which any storage unit charged. It
      reads every recorded history at every step, so each must be at least
      as long as the run. */
  function CountChargingSteps(run: ScenarioRun): (n: nat)
    requires forall k :: k in run.storageOutput ==> run.steps <= |run.storageOutput[k]|
    ensures n <= run.steps
  {
    CountActiveSteps(run.storageOutput, run.steps, Charging)
  }

  /** `count_discharging_steps`: the steps in which any storage unit
      discharged. */
  function CountDischargingSteps(run: ScenarioRun): (n: nat)
    requires forall k :: k in run.storageOutput ==> run.steps <= |run.storageOutput[k]|
    ensures n <= run.steps
  {
    CountActiveSteps(run.storageOutput, run.steps, Discharging)
  }

  /** A consistent run can always be counted. */
  lemma ConsistentCountable(run: ScenarioRun)
    requires Consistent(run)
    ensures forall k :: k in run.storageOutput ==> run.steps <= |run.storageOutput[k]|
  {
    forall k | k in run.storageOutput
      ensures run.steps <= |run.storageOutput[k]|
    {
      assert multiset(run.storageNames)[k] >= 1;
      assert |Lookup(run.storageOutput, k)| == ReadingsAfter(multiset(run.storageNames)[k], run.steps);
    }
  }

  /** The active steps below `n`, as a set. */
  function ActiveSteps(m: Histories<string>, n: nat, d: Direction): (r: set<nat>)
    requires forall k :: k in m ==> n <= |m[k]|
    ensures forall t: nat :: t in r <==> t < n && ActiveAt(m, t, d)
  {
    set t: nat | t < n && ActiveAt(m, t, d)
  }

  /** Extending the range by one step adds that step exactly when it is
      active. */
  lemma ActiveStepsSnoc(m: Histories<string>, n: nat, d: Direction)
    requires 0 < n && forall k :: k in m ==> n <= |m[k]|
    ensures |ActiveSteps(m, n, d)| == |ActiveSteps(m, n - 1, d)| + (if ActiveAt(m, n - 1, d) then 1 else 0)
  {
    var before := ActiveSteps(m, n - 1, d);
    var after := ActiveSteps(m, n, d);
    forall t: nat
      ensures t in after <==> t in before || (t == n - 1 && ActiveAt(m, n - 1, d))
    {
    }
    if ActiveAt(m, n - 1, d) {
      assert after == before + {n - 1};
    } else {
      assert after == before;
    }
  }

  /** The count is the size of the set of active steps. */
  lemma {:induction false} CountActiveStepsIsCardinality(m: Histories<string>, n: nat, d: Direction)
    requires forall k :: k in m ==> n <= |m[k]|
    ensures CountActiveSteps(m, n, d) == |ActiveSteps(m, n, d)|
  {
    if n > 0 {
      CountActiveStepsIsCardinality(m, n - 1, d);
      ActiveStepsSnoc(m, n, d);
    }
  }

  /** The count is non-zero exactly when some step below `n` is active. */
  lemma {:induction false} CountActiveStepsPositive(m: Histories<string>, n: nat, d: Direction)
    requires forall k :: k in m ==> n <= |m[k]|
    ensures CountActiveSteps(m, n, d) > 0 <==> exists t :: 0 <= t < n && ActiveAt(m, t, d)
  {
    if n > 0 {
      CountActiveStepsPositive(m, n - 1, d);
    }
  }

  /** With one recorded history, counting active steps is counting that
      history's entries of the direction's sign. */
  lemma {:induction false} CountActiveStepsSingle(name: string, h: seq<real>, n: nat)
    requires n <= |h|
    ensures CountActiveSteps(map[name := h], n, Charging) == CountNegative(h[..n])
    ensures CountActiveSteps(map[name := h], n, Discharging) == CountPositive(h[..n])
  {
    var m := map[name := h];
    if n > 0 {
      CountActiveStepsSingle(name, h, n - 1);
      assert h[..n] == h[..n - 1] + [h[n - 1]];
      SumAppend(h[..n - 1], [h[n - 1]]);
      assert name in m && m[name][n - 1] == h[n - 1];
      assert ActiveAt(m, n - 1, Charging) <==> h[n - 1] < 0.0;
      assert ActiveAt(m, n - 1, Discharging) <==> h[n - 1] > 0.0;
    }
  }

  // ---- Charging totals and counts agree -----------------------------------------

  /** The charged energy over a list of names is positive exactly when one of
      the listed histories has a negative entry. */
  lemma {:induction false} ChargedOverPositive(m: Histories<string>, names: seq<string>)
    ensures ChargedOver(m, names) > 0.0 <==>
            exists i, t :: 0 <= i < |names| && 0 <= t < |Lookup(m, names[i])| && Shows(Lookup(m, names[i])[t], Charging)
  {
    if |names| > 0 {
      ChargedOverPositive(m, names[1..]);
      NegativePartIff(Lookup(m, names[0]));
      if exists i, t :: 0 <= i < |names| && 0 <= t < |Lookup(m, names[i])| && Shows(Lookup(m, names[i])[t], Charging) {
        var i, t :| 0 <= i < |names| && 0 <= t < |Lookup(m, names[i])| && Shows(Lookup(m, names[i])[t], Charging);
        if i > 0 {
          assert names[1..][i - 1] == names[i];
        }
      }
    }
  }

  /** Mirror image of `ChargedOverPositive` for discharging. */
  lemma {:induction false} DischargedOverPositive(m: Histories<string>, names: seq<string>)
    ensures DischargedOver(m, names) > 0.0 <==>
            exists i, t :: 0 <= i < |names| && 0 <= t < |Lookup(m, names[i])| && Shows(Lookup(m, names[i])[t], Discharging)
  {
    if |names| > 0 {
      DischargedOverPositive(m, names[1..]);
      PositivePartIff(Lookup(m, names[0]));
      if exists i, t :: 0 <= i < |names| && 0 <= t < |Lookup(m, names[i])| && Shows(Lookup(m, names[i])[t], Discharging) {
        var i, t :| 0 <= i < |names| && 0 <= t < |Lookup(m, names[i])| && Shows(Lookup(m, names[i])[t], Discharging);
        if i > 0 {
          assert names[1..][i - 1] == names[i];
        }
      }
    }
  }

  /** A name listed once occurs once in the multiset of names. */
  lemma DistinctOnce(names: seq<string>, k: nat)
    requires Distinct(names) && k < |names|
    ensures multiset(names)[names[k]] == 1
  {
    var zeros := seq(|names|, _ => 0.0);
    PicksDistinct(names, zeros, k);
    PicksCount(names, zeros, names[k]);
  }

  /** With distinct storage names, every registered history spans the run
      exactly. */
  lemma DistinctHistoriesSpanRun(run: ScenarioRun)
    requires Consistent(run) && Distinct(run.storageNames)
    ensures forall i :: 0 <= i < |run.storageNames| ==>
              |Lookup(run.storageOutput, run.storageNames[i])| == run.steps
  {
    forall i | 0 <= i < |run.storageNames|
      ensures |Lookup(run.storageOutput, run.storageNames[i])| == run.steps
    {
      DistinctOnce(run.storageNames, i);
    }
  }

  /** With distinct storage names, a step is active in direction `d`
      exactly when some registered history shows `d` somewhere. */
  lemma ActiveStepIffShown(run: ScenarioRun, d: Direction)
    requires Consistent(run) && Distinct(run.storageNames)
    requires forall k :: k in run.storageOutput ==> run.steps <= |run.storageOutput[k]|
    ensures (exists t :: 0 <= t < run.steps && ActiveAt(run.storageOutput, t, d))
            <==> exists i, t :: 0 <= i < |run.storageNames| && 0 <= t < |Lookup(run.storageOutput, run.storageNames[i])|
                                && Shows(Lookup(run.storageOutput, run.storageNames[i])[t], d)
  {
    DistinctHistoriesSpanRun(run);
    var m, names := run.storageOutput, run.storageNames;
    forall t | 0 <= t < run.steps && ActiveAt(m, t, d)
      ensures exists i, t' :: 0 <= i < |names| && 0 <= t' < |Lookup(m, names[i])|
                && Shows(Lookup(m, names[i])[t'], d)
    {
      var k :| k in m && Shows(m[k][t], d);
      var i :| 0 <= i < |names| && names[i] == k;
      assert Lookup(m, names[i]) == m[k];
    }
    forall i, t | 0 <= i < |names| && 0 <= t < |Lookup(m, names[i])| && Shows(Lookup(m, names[i])[t], d)
      ensures exists t' :: 0 <= t' < run.steps && ActiveAt(m, t', d)
    {
      assert names[i] in m;
      assert ActiveAt(m, t, d);
    }
  }

  /** With distinct storage names, some step counts as charging exactly when
      some energy was charged, and likewise for discharging. */
  lemma StorageCountsMatchTotals(run: ScenarioRun)
    requires Consistent(run) && Distinct(run.storageNames)
    ensures forall k :: k in run.storageOutput ==> run.steps <= |run.storageOutput[k]|
    ensures CountChargingSteps(run) > 0 <==> ComputeTotalCharging(run) > 0.0
    ensures CountDischargingSteps(run) > 0 <==> ComputeTotalDischarging(run) > 0.0
  {
    ConsistentCountable(run);
    assert CountChargingSteps(run) > 0 <==> ComputeTotalCharging(run) > 0.0 by {
      CountActiveStepsPositive(run.storageOutput, run.steps, Charging);
      ChargedOverPositive(run.storageOutput, run.storageNames);
      ActiveStepIffShown(run, Charging);
    }
    assert CountDischargingSteps(run) > 0 <==> ComputeTotalDischarging(run) > 0.0 by {
      CountActiveStepsPositive(run.storageOutput, run.steps, Discharging);
      DischargedOverPositive(run.storageOutput, run.storageNames);
      ActiveStepIffShown(run, Discharging);
    }
  }

  // ---- Worked cases from the repository's unit tests --------------------------

  /** A battery that outputs 0, -10 and 5 MW over three sweeps charged 10 MWh
      and discharged 5 MWh. */
  lemma StorageTotalsExample(run: ScenarioRun)
    requires run.storageNames == ["battery"]
    requires Lookup(run.storageOutput, "battery") == [0.0, -10.0, 5.0]
    ensures ComputeTotalCharging(run) == 10.0
    ensures ComputeTotalDischarging(run) == 5.0
  {
    assert [0.0, -10.0, 5.0][1..] == [-10.0, 5.0];
    assert [-10.0, 5.0][1..] == [5.0];
  }

  /** A battery with outputs 0, 100, 50, 40, -20, -40, -100, 20 over eight
      steps charged in three of them and discharged in four. */
  lemma StorageCountsExample(run: ScenarioRun, h: seq<real>)
    requires h == [0.0, 100.0, 50.0, 40.0, -20.0, -40.0, -100.0, 20.0]
    requires run.storageOutput == map["battery" := h] && run.steps == 8
    ensures CountChargingSteps(run) == 3
    ensures CountDischargingSteps(run) == 4
  {
    CountActiveStepsSingle("battery", h, 8);
    assert h[..8] == h;
    assert CountNegative([0.0, 100.0, 50.0, 40.0, -20.0, -40.0, -100.0, 20.0]) == 3;
    assert CountPositive([0.0, 100.0, 50.0, 40.0, -20.0, -40.0, -100.0, 20.0]) == 4;
  }
}
