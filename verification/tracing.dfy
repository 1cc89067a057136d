/** The statistics collector of `electric_waltz/tracing.py`: an older,
    stand-alone tracer that keeps a per-name history of the net generation of
    every registered power source and the output of every registered storage
    unit, one entry per sweep. */
module Tracing {
  import opened Common
  import opened History
  import opened Sources
  import opened StorageUnits

  datatype StatsCollector = StatsCollector(
    step: nat,                          // sweeps so far
    sourceNames: seq<string>,           // registered power sources, in order
    storageNames: seq<string>,          // registered storage units, in order
    sourceGeneration: Histories<string>,
    storageOutput: Histories<string>
  )

  /** `StatsCollector.__init__`: no step taken, nothing registered, no
      history. */
  function NewCollector(): (r: StatsCollector)
    ensures r.step == 0 && r.sourceNames == [] && r.storageNames == []
    ensures forall name :: name !in r.sourceGeneration && name !in r.storageOutput
  {
    StatsCollector(0, [], [], map[], map[])
  }

  /** `add_power_sources`: the sources join the end of the registration
      list, in the order given; nothing else changes. */
  function AddPowerSources(c: StatsCollector, sources: seq<PowerSource>): (r: StatsCollector)
    ensures |r.sourceNames| == |c.sourceNames| + |sources|
    ensures r.sourceNames[..|c.sourceNames|] == c.sourceNames
    ensures forall i :: 0 <= i < |sources| ==> r.sourceNames[|c.sourceNames| + i] == sources[i].name
    ensures r.(sourceNames := c.sourceNames) == c
  {
    c.(sourceNames := c.sourceNames + SourceNames(sources))
  }

  /** `add_storage_units`: the units join the end of the registration list,
      in the order given; nothing else changes. */
  function AddStorageUnits<U>(c: StatsCollector, io: StorageInterface<U>, units: seq<U>): (r: StatsCollector)
    ensures |r.storageNames| == |c.storageNames| + |units|
    ensures r.storageNames[..|c.storageNames|] == c.storageNames
    ensures forall i :: 0 <= i < |units| ==> r.storageNames[|c.storageNames| + i] == io.name(units[i])
    ensures r.(storageNames := c.storageNames) == c
  {
    c.(storageNames := c.storageNames + Names(io, units))
  }

  /** `get_source_generation`: nothing for a name that never had a value
      appended, its history otherwise. */
  function GetSourceGeneration(c: StatsCollector, name: string): (r: Option<seq<real>>)
    ensures r.None? <==> name !in c.sourceGeneration
    ensures r.Some? ==> r.value == Lookup(c.sourceGeneration, name)
  {
    if name !in c.sourceGeneration then None else Some(c.sourceGeneration[name])
  }

  /** `get_storage_output`: nothing for a name that never had a value
      appended, its history otherwise. */
  function GetStorageOutput(c: StatsCollector, name: string): (r: Option<seq<real>>)
    ensures r.None? <==> name !in c.storageOutput
    ensures r.Some? ==> r.value == Lookup(c.storageOutput, name)
  {
    if name !in c.storageOutput then None else Some(c.storageOutput[name])
  }

  /** One sweep, given the readings of the registered objects in
      registration order: each reading is appended under its object's name
      and the step count grows by one. */
  function SweepReadings(c: StatsCollector, generation: seq<real>, outputs: seq<real>): (r: StatsCollector)
    requires |generation| == |c.sourceNames| && |outputs| == |c.storageNames|
    ensures r.step == c.step + 1
    ensures r.sourceNames == c.sourceNames && r.storageNames == c.storageNames
  {
    c.(step := c.step + 1,
       sourceGeneration := AppendEach(c.sourceGeneration, c.sourceNames, generation),
       storageOutput := AppendEach(c.storageOutput, c.storageNames, outputs))
  }

  /** What a sweep does to one name's histories: the name has a history
      afterwards exactly when it had one or is registered, and the history
      grows by exactly the readings listed under the name. */
  lemma SweepReadingsHistories(c: StatsCollector, generation: seq<real>, outputs: seq<real>, name: string)
    requires |generation| == |c.sourceNames| && |outputs| == |c.storageNames|
    ensures var r := SweepReadings(c, generation, outputs);
            && (name in r.sourceGeneration <==> name in c.sourceGeneration || name in c.sourceNames)
            && (name in r.storageOutput <==> name in c.storageOutput || name in c.storageNames)
            && Lookup(r.sourceGeneration, name) == Lookup(c.sourceGeneration, name) + Picks(c.sourceNames, generation, name)
            && Lookup(r.storageOutput, name) == Lookup(c.storageOutput, name) + Picks(c.storageNames, outputs, name)
  {
    AppendEachLookup(c.sourceGeneration, c.sourceNames, generation, name);
    AppendEachLookup(c.storageOutput, c.storageNames, outputs, name);
  }

  /** `StatsCollector.sweep`: read the registered objects' current state. The
      objects passed are the registered ones, in registration order. */
  function Sweep<U>(c: StatsCollector, sources: seq<PowerSource>, io: StorageInterface<U>, storages: seq<U>): (r: StatsCollector)
    requires SourceNames(sources) == c.sourceNames && Names(io, storages) == c.storageNames
    ensures r.step == c.step + 1
    ensures r.sourceNames == c.sourceNames && r.storageNames == c.storageNames
  {
    SweepReadings(c, NetGenerations(sources), Outputs(io, storages))
  }

  /** With distinct names, a sweep appends to each registered object's
      history exactly that object's current reading. */
  lemma SweepAppendsReadings<U>(c: StatsCollector, sources: seq<PowerSource>, io: StorageInterface<U>, storages: seq<U>,
                                i: nat, j: nat)
    requires SourceNames(sources) == c.sourceNames && Distinct(c.sourceNames)
    requires Names(io, storages) == c.storageNames && Distinct(c.storageNames)
    requires i < |sources| && j < |storages|
    ensures var r := Sweep(c, sources, io, storages);
            && GetSourceGeneration(r, sources[i].name)
               == Some(Lookup(c.sourceGeneration, sources[i].name) + [sources[i].NetGeneration()])
            && GetStorageOutput(r, io.name(storages[j]))
               == Some(Lookup(c.storageOutput, io.name(storages[j])) + [io.output(storages[j])])
  {
    SweepReadingsHistories(c, NetGenerations(sources), Outputs(io, storages), sources[i].name);
    SweepReadingsHistories(c, NetGenerations(sources), Outputs(io, storages), io.name(storages[j]));
    PicksDistinct(c.sourceNames, NetGenerations(sources), i);
    PicksDistinct(c.storageNames, Outputs(io, storages), j);
  }

  // ---- Many sweeps ----------------------------------------------------------------

  /** Readings for `sweeps` sweeps: one reading per registered source and one
      per registered storage unit, in registration order. */
  predicate ReadingsFit(c: StatsCollector, generations: seq<seq<real>>, outputs: seq<seq<real>>) {
    && |generations| == |outputs|
    && (forall t :: 0 <= t < |generations| ==> |generations[t]| == |c.sourceNames|)
    && (forall t :: 0 <= t < |outputs| ==> |outputs[t]| == |c.storageNames|)
  }

  /** Sweep once per entry of the readings, in order. */
  function SweepAll(c: StatsCollector, generations: seq<seq<real>>, outputs: seq<seq<real>>): (r: StatsCollector)
    requires ReadingsFit(c, generations, outputs)
    ensures r.step == c.step + |generations|
    ensures r.sourceNames == c.sourceNames && r.storageNames == c.storageNames
    decreases |generations|
  {
    if |generations| == 0 then c
    else
      var n := |generations| - 1;
      SweepReadings(SweepAll(c, generations[..n], outputs[..n]), generations[n], outputs[n])
  }

  /** With distinct source names, after any number of sweeps a registered
      source's history is what it had before followed by its own readings,
      in sweep order. */
  lemma {:induction false} SweepAllSourceHistory(c: StatsCollector, generations: seq<seq<real>>, outputs: seq<seq<real>>,
                                                 k: nat)
    requires ReadingsFit(c, generations, outputs)
    requires Distinct(c.sourceNames) && k < |c.sourceNames|
    ensures Lookup(SweepAll(c, generations, outputs).sourceGeneration, c.sourceNames[k])
            == Lookup(c.sourceGeneration, c.sourceNames[k]) + Column(generations, k)
    decreases |generations|
  {
    var name := c.sourceNames[k];
    if |generations| == 0 {
      assert Column(generations, k) == [];
    } else {
      var n := |generations| - 1;
      var before := SweepAll(c, generations[..n], outputs[..n]);
      var after := SweepAll(c, generations, outputs);
      assert Lookup(before.sourceGeneration, name) == Lookup(c.sourceGeneration, name) + Column(generations[..n], k) by {
        SweepAllSourceHistory(c, generations[..n], outputs[..n], k);
      }
      assert Lookup(after.sourceGeneration, name) == Lookup(before.sourceGeneration, name) + [generations[n][k]] by {
        assert after.sourceGeneration == AppendEach(before.sourceGeneration, c.sourceNames, generations[n]);
        AppendEachLookup(before.sourceGeneration, c.sourceNames, generations[n], name);
        PicksDistinct(c.sourceNames, generations[n], k);
      }
      ColumnSnoc(generations, k);
    }
  }

  /** With distinct storage names, after any number of sweeps a registered
      storage unit's history is what it had before followed by its own
      readings, in sweep order. */
  lemma {:induction false} SweepAllStorageHistory(c: StatsCollector, generations: seq<seq<real>>, outputs: seq<seq<real>>,
                                                  l: nat)
    requires ReadingsFit(c, generations, outputs)
    requires Distinct(c.storageNames) && l < |c.storageNames|
    ensures Lookup(SweepAll(c, generations, outputs).storageOutput, c.storageNames[l])
            == Lookup(c.storageOutput, c.storageNames[l]) + Column(outputs, l)
    decreases |generations|
  {
    var name := c.storageNames[l];
    if |generations| == 0 {
      assert Column(outputs, l) == [];
    } else {
      var n := |generations| - 1;
      var before := SweepAll(c, generations[..n], outputs[..n]);
      var after := SweepAll(c, generations, outputs);
      assert Lookup(before.storageOutput, name) == Lookup(c.storageOutput, name) + Column(outputs[..n], l) by {
        SweepAllStorageHistory(c, generations[..n], outputs[..n], l);
      }
      assert Lookup(after.storageOutput, name) == Lookup(before.storageOutput, name) + [outputs[n][l]] by {
        assert after.storageOutput == AppendEach(before.storageOutput, c.storageNames, outputs[n]);
        AppendEachLookup(before.storageOutput, c.storageNames, outputs[n], name);
        PicksDistinct(c.storageNames, outputs[n], l);
      }
      ColumnSnoc(outputs, l);
    }
  }

  /** A name that is registered for neither kind and had no history never
      gets one, however many sweeps follow: both lookups stay empty. */
  lemma {:induction false} SweepAllUnregistered(c: StatsCollector, generations: seq<seq<real>>, outputs: seq<seq<real>>,
                                                name: string)
    requires ReadingsFit(c, generations, outputs)
    requires name !in c.sourceNames && name !in c.sourceGeneration
    requires name !in c.storageNames && name !in c.storageOutput
    ensures GetSourceGeneration(SweepAll(c, generations, outputs), name) == None
    ensures GetStorageOutput(SweepAll(c, generations, outputs), name) == None
    decreases |generations|
  {
    if |generations| > 0 {
      var n := |generations| - 1;
      SweepAllUnregistered(c, generations[..n], outputs[..n], name);
      SweepReadingsHistories(SweepAll(c, generations[..n], outputs[..n]), generations[n], outputs[n], name);
    }
  }

  // ---- Worked case from the repository's unit tests --------------------------------

  /** A wind farm at 500 MW and two storage units at 100 and 200 MW, swept
      twice: each history holds its reading twice, and names never
      registered have no history. */
  lemma TwoSweepsExample(c: StatsCollector, gs: seq<seq<real>>, os: seq<seq<real>>)
    requires c == StatsCollector(0, ["wind"], ["pumped", "p2g"], map[], map[])
    requires gs == [[500.0], [500.0]] && os == [[100.0, 200.0], [100.0, 200.0]]
    ensures ReadingsFit(c, gs, os)
    ensures var r := SweepAll(c, gs, os);
            && r.step == 2
            && GetSourceGeneration(r, "wind") == Some([500.0, 500.0])
            && GetStorageOutput(r, "pumped") == Some([100.0, 100.0])
            && GetStorageOutput(r, "p2g") == Some([200.0, 200.0])
            && GetStorageOutput(r, "hydrogen") == None
            && GetSourceGeneration(r, "photovoltaic") == None
  {
    var r := SweepAll(c, gs, os);
    assert Lookup(r.sourceGeneration, "wind") == [500.0, 500.0] by {
      SweepAllSourceHistory(c, gs, os, 0);
      assert Column(gs, 0) == [500.0, 500.0];
    }
    assert Lookup(r.storageOutput, "pumped") == [100.0, 100.0] by {
      assert Distinct(c.storageNames);
      SweepAllStorageHistory(c, gs, os, 0);
      assert Column(os, 0) == [100.0, 100.0];
    }
    assert Lookup(r.storageOutput, "p2g") == [200.0, 200.0] by {
      assert Distinct(c.storageNames);
      SweepAllStorageHistory(c, gs, os, 1);
      assert Column(os, 1) == [200.0, 200.0];
    }
    SweepAllUnregistered(c, gs, os, "hydrogen");
    SweepAllUnregistered(c, gs, os, "photovoltaic");
  }
}
