# electric-waltz in Dafny

A model of the grid-balancing engine of electric-waltz, with proofs about it.
The engine simulates an electricity grid one step at a time. Each step has a
load to meet. Baseload and intermittent power sources run as they are. A
surplus is offered to storage, then exported, and whatever is left is dumped.
A deficit is covered by discharging storage, then by dispatching flexible
sources in merit order, then by importing, and whatever is left is a
shortage. After every step the run records each source's net generation,
each storage unit's output, the terminal's net import and the step's
shortage. Totals and step counts are computed from those records.

The model is functional. Every mutable Python object becomes an immutable
datatype. Every mutating method becomes a function that returns the new
state together with the method's result. Power and energy are `real`, so
the arithmetic is exact.

| Python | Dafny |
|---|---|
| `electric_waltz/source.py` | `sources.dfy`, module `Sources` |
| `electric_waltz/cross_border.py` | `cross_border.dfy`, module `CrossBorder` |
| `electric_waltz/storage.py` | `storage.dfy`, module `Storage` |
| `EnergyStorage`, the unit the dispatchers drive | `storage_units.dfy`, module `StorageUnits` |
| `electric_waltz/dispatch.py` | `dispatch.dfy`, module `Dispatch` |
| `ScenarioRun` in `electric_waltz/scenario.py` | `stats.dfy`, module `Stats` |
| `Scenario` in `electric_waltz/scenario.py` | `scenarios.dfy`, module `Scenarios` |
| `electric_waltz/tracing.py` | `tracing.dfy`, module `Tracing` |
| the `defaultdict(list)` histories | `history.dfy`, module `History` |
| sign-filtered sums and counts | `reductions.dfy`, module `Reductions` |
| `Optional`, constructor errors, `min`/`max` | `common.dfy`, module `Common` |

Modelling choices:

- **Constructor checks.** A constructor's `assert`s and the two `ValueError`s
  of `Scenario.__init__` become a `Result`. The error says which check failed
  first.
- **Method preconditions.** An `assert` at the top of a method (`power >= 0`,
  a capacity factor in [0, 1]) becomes a `requires`.
- **Storage units.** `EnergyStorage` is imported by `dispatch.py` and
  `scenario.py`, but its class is not part of this model. A storage unit is
  therefore an abstract state `U` with four operations: its name, its
  output, `charge_at` and `discharge_at`.
  - The dispatch and balance results assume the unit contract `Conforms`: a
    request of `p` MW is answered with a power in [0, p], and the unit keeps
    its name. The `1e-6` assertions of `StorageDispatcher` rely on the same
    thing.
- **Object references.** The statistics objects hold references to the
  registered objects and read their current state at each sweep. Here they
  hold the registered names, and a sweep is handed the objects' current
  states in registration order.
- **Signed shortage.** `_step` returns one signed number: the load left
  unmet (positive) or the surplus dumped (negative). A dump is therefore
  recorded as a negative shortage. A 1000 MW nuclear plant against loads of
  500, 1000 and 1500 MW records −500, 0 and 500, and 3000 MWh generated,
  because the plant runs at full output in every step and its net
  generation is recorded whatever is dumped. The balance of a step is
  inflexible + discharging + flexible + import + shortage = consumption +
  charging + export.
- **Returned trace.** `RunScenario` also returns the steps it took (the
  trace), so that the contents of the returned statistics can be stated.

## Model

| member | source | states |
|---|---|---|
| Common.Min | electric_waltz/cross_border.py:35 | the smaller of two reals: below both and equal to one of them |
| Common.Max | electric_waltz/dispatch.py:40 | the larger of two reals: above both and equal to one of them |
| Sources.NewPowerSource | electric_waltz/source.py:20-48 | the constructor succeeds exactly when the name is non-empty, the nominal capacity is positive, self-consumption is in [0, 1) and utilisation is in [0, 1]; it then stores the four values and the source is valid; otherwise it fails with an assertion error |
| Sources.GenerationBounds | electric_waltz/source.py:56-69 | for a valid source, 0 <= net generation <= gross generation <= nominal capacity, and net generation <= maximum net power, which lies in (0, nominal] |
| Sources.NetIsShareOfMax | electric_waltz/source.py:56-69 | net generation is the capacity factor times the maximum net power |
| Sources.NetGenerationExample | tests/test_source.py:89-95 | 1000 MW at 10 % self-consumption and capacity factor 0.5 generates 500 MW gross and 450 MW net |
| Sources.SetUtilisation | electric_waltz/source.py:78-88 | the setter needs a value in [0, 1]; it stores exactly that value, gross generation becomes value × nominal, the name, nominal and self-consumption are unchanged, and validity is kept |
| Sources.DispatchAt | electric_waltz/source.py:108-129 | for a request >= 0 the source stays valid and keeps its nameplate; the result is the new net generation; a request that fits the maximum net power is returned exactly, with the capacity factor as the fitting share; a larger one yields the maximum at capacity factor 1; the result lies in [0, request] |
| Sources.DispatchShare | electric_waltz/source.py:122-128 | the requested share of the maximum, power / max, is non-negative, recovers the request, and is at most 1 exactly when the request fits |
| Sources.DispatchExample | tests/test_source.py:27-45 | a 500 MW unit at 20 % self-consumption answers a 200 MW request with 200 MW at capacity factor 0.5, and a 999 MW request with 400 MW |
| Sources.ShutDown | electric_waltz/source.py:131-136 | capacity factor, gross and net generation all become 0, the nameplate is kept and validity is kept |
| Sources.TotalNetGenerationBounds | electric_waltz/dispatch.py:46-48 | the summed net generation of valid sources lies between 0 and their summed maximum net power |
| Sources.TotalNetGenerationAppend | electric_waltz/scenario.py:234-236 | the summed net generation of two lists of sources is the sum of the two lists' totals |
| Sources.SourceNames | electric_waltz/scenario.py:116-117 | one name per source, in order: the keys the histories are recorded under |
| Sources.NetGenerations | electric_waltz/scenario.py:116-117 | one net generation per source, in order: what a sweep reads |
| Sources.NetGenerationsSum | electric_waltz/dispatch.py:46-48 | the readings of a sweep add up to the sources' total net generation |
| CrossBorder.NewTerminal | electric_waltz/cross_border.py:15-21 | a new terminal has the given capacity and a net import of 0; the capacity is not checked |
| CrossBorder.ExportAt | electric_waltz/cross_border.py:23-36 | a request >= 0 exports min(capacity, request); the export is recorded as a negative net import and the capacity is kept; the export is at most the request and at most the capacity, and it is non-negative when the capacity is |
| CrossBorder.ImportAt | electric_waltz/cross_border.py:38-51 | a request >= 0 imports min(capacity, request); the import is recorded as a positive net import, with the same bounds as an export |
| CrossBorder.RequestsOverwrite | electric_waltz/cross_border.py:35-50 | requests overwrite rather than accumulate: after any history, an export or import leaves the terminal as it would leave a new terminal of the same capacity |
| CrossBorder.TerminalExample | tests/test_cross_border.py:7-62 | a new 5000 MW terminal has net import 0; asked to export 6000 MW it exports 5000 MW with net import −5000; exporting 4000 MW then importing 3000 MW leaves net import 3000 |
| Storage.NewStorageAggregate | electric_waltz/storage.py:12-30 | construction succeeds exactly when capacity > 0, maximum energy > 0 and efficiency is in (0, 1]; the aggregate then starts empty, with all its room remaining, and is not fully charged; otherwise it fails with an assertion error |
| Storage.TryCharge | electric_waltz/storage.py:32-57 | the energy taken plus the overflow returned is the offer; a full reservoir takes nothing; an offer above the remaining room fills the reservoir and returns the excess; a smaller offer is taken whole; capacity, maximum and efficiency never change; a non-negative offer keeps 0 <= energy <= maximum and returns an overflow in [0, offer] |
| Storage.TryChargeTakesWhatFits | electric_waltz/storage.py:42-57 | for a non-negative offer the reservoir takes exactly min(offer, remaining room) and returns the rest |
| StorageUnits.Names | electric_waltz/scenario.py:118-119 | one name per storage unit, in order |
| StorageUnits.Outputs | electric_waltz/scenario.py:118-119 | one output per storage unit, in order |
| Dispatch.Residual | electric_waltz/dispatch.py:40 | what a unit is asked for, max(0, power − served): non-negative, the shortfall while the request is not covered, and 0 once it is |
| Dispatch.DispatchFrom | electric_waltz/dispatch.py:36-44 | the merit-order loop keeps every unit's nameplate and validity; the result is what was already served plus the sum of the units' answers, and the units' new net generation is that sum of answers |
| Dispatch.DispatchFromTotal | electric_waltz/dispatch.py:36-44 | from a covered amount at most the request, the loop generates the rest of the request or the units' whole maximum net power, whichever is smaller |
| Dispatch.DispatchFromRequest | electric_waltz/dispatch.py:39-40 | unit i is asked for the residual after what the units before it generated |
| Dispatch.DispatchFromAnswer | electric_waltz/dispatch.py:40 | unit i answers exactly as a single source dispatched at its own request |
| Dispatch.DispatchFromCovered | electric_waltz/dispatch.py:36-40 | what the units before unit i generated is the sum of their answers |
| Dispatch.RequestFromCapacities | electric_waltz/dispatch.py:38-40 | unit i's request has a closed form: the request less the maximum net power of the units before it, when positive |
| Dispatch.RequestAfterHead | electric_waltz/dispatch.py:39-40 | one step of that closed form: the head unit either covers the rest of the request or contributes its full maximum |
| Dispatch.DispatchSources | electric_waltz/dispatch.py:33-48 | `SourceDispatcher.dispatch_at` for a request >= 0: the units keep their nameplates and validity, their net generation adds up to the result, and the result is min(request, total maximum net power), which lies in [0, request] |
| Dispatch.DispatchSourcesUnit | electric_waltz/dispatch.py:38-40 | unit i is asked for max(0, request − what the units before it generated), which is also max(0, request − their maximum net power), and answers as a single source at that request |
| Dispatch.DispatchNothing | tests/test_dispatch.py:25-37 | dispatching 0 MW asks every unit for 0, turns every unit off and yields 0 |
| Dispatch.MeritOrderShortExample | tests/test_dispatch.py:67-79 | three units of 100 MW net asked for 1000 MW are asked for 1000, 900 and 800 MW and deliver 300 MW |
| Dispatch.MeritOrderExactExample | tests/test_dispatch.py:53-65 | units of 400, 400 and 200 MW net asked for 1000 MW are asked for 1000, 600 and 200 MW and deliver 1000 MW |
| Dispatch.ShutDownAll | electric_waltz/dispatch.py:29-31 | every unit is shut down, each exactly once and in place; the total net generation afterwards is 0 and validity is kept |
| Dispatch.ChaseFrom | electric_waltz/dispatch.py:62-64 | the storage loop's total is what was already served plus the sum of the answers; when every unit stays within its request, the total stays within the request |
| Dispatch.ChaseFromUnit | electric_waltz/dispatch.py:63-64 | storage unit i is asked for the residual after what the units before it exchanged, and its answer and new state are the unit's own |
| Dispatch.ChaseFromCovered | electric_waltz/dispatch.py:62-64 | what the storage units before unit i exchanged is the sum of their answers |
| Dispatch.ChaseKeepsNames | electric_waltz/dispatch.py:63-64 | a loop whose requests keep a unit's name keeps every unit's name |
| Dispatch.ChargeStorage | electric_waltz/dispatch.py:55-68 | `charge_at` for a request >= 0: the total absorbed is the sum of the answers; under the unit contract it lies in [0, request] and the units keep their names |
| Dispatch.DischargeStorage | electric_waltz/dispatch.py:70-83 | `discharge_at` for a request >= 0: the total delivered is the sum of the answers; under the unit contract it lies in [0, request] and the units keep their names |
| Dispatch.StorageUnitRequests | electric_waltz/dispatch.py:62-79 | for both charging and discharging, storage unit i is asked for max(0, request − what the units before it exchanged) and answers on its own |
| Dispatch.StorageOutputsReportTotals | electric_waltz/dispatch.py:55-83 | when a unit reports the power it just exchanged as its output, the units' outputs after charging add up to minus the absorbed total, and after discharging to the delivered total |
| Dispatch.CapacitiesOfThree | tests/test_dispatch.py:53-79 | the prefix capacities of a three-unit merit order |
| History.AppendEachLookup | electric_waltz/scenario.py:114-119 | appending one value per listed name: a name has a history afterwards exactly when it had one or is listed, and its history grows by exactly the values listed under it, in order |
| History.LookupHead | electric_waltz/scenario.py:116-117 | one append seen from one name: the head value and then the tail's values are all of that name's values |
| History.PicksDistinct | electric_waltz/scenario.py:116-119 | with distinct names, each name receives exactly its own value |
| History.PicksCount | electric_waltz/scenario.py:116-119 | a name listed n times receives n values per sweep |
| History.AppendAllLookup | electric_waltz/scenario.py:213-223 | after several sweeps, a name's history has grown by the values listed under it in every sweep, in sweep order |
| History.PicksAllDistinct | electric_waltz/tracing.py:59-63 | with distinct names, a name's values over several sweeps are its own column of the readings: one value per sweep, in order |
| Reductions.SumPositive | electric_waltz/scenario.py:74-77 | the sum of the positive entries is non-negative |
| Reductions.SumNegative | electric_waltz/scenario.py:65-71 | the sum of the negative entries is non-positive |
| Reductions.CountPositive | electric_waltz/scenario.py:104-108 | the number of positive entries is at most the length |
| Reductions.CountNegative | electric_waltz/scenario.py:93-97 | the number of negative entries is at most the length |
| Reductions.SignSplit | electric_waltz/scenario.py:65-77 | the positive part plus the negative part is the plain sum |
| Reductions.PositivePartIff | electric_waltz/scenario.py:73-77 | the positive part is non-zero exactly when the count of positive entries is, which is exactly when some entry is positive |
| Reductions.NegativePartIff | electric_waltz/scenario.py:65-71 | the same for the negative part and the negative entries |
| Reductions.CountsWithinLength | electric_waltz/scenario.py:93-108 | positive and negative entries together are at most the length |
| Reductions.SumAppend | electric_waltz/scenario.py:114-122 | every sum and count distributes over concatenation |
| Reductions.SumNegated | electric_waltz/dispatch.py:55-68 | negating every entry negates the sum |
| Stats.NewRun | electric_waltz/scenario.py:24-48 | a new run records the registrations and nothing else: 0 steps, every history empty, no net import, no shortage, and the run is consistent |
| Stats.SweepReadings | electric_waltz/scenario.py:114-122 | a sweep adds exactly one step, appends one reading per registered object under its name, appends the net import exactly when a terminal is registered, and keeps the registrations and the shortages |
| Stats.SweepReadingsHistories | electric_waltz/scenario.py:114-119 | after a sweep, a name has a history exactly when it had one or is registered, and its history grows by exactly the readings listed under it |
| Stats.Sweep | electric_waltz/scenario.py:114-122 | `ScenarioRun.sweep` adds exactly one step, keeps the registrations and shortages, appends the terminal's net import exactly when a terminal is registered, and keeps the run consistent |
| Stats.SweepAppendsReadings | electric_waltz/scenario.py:114-119 | with distinct names, a sweep appends to each source's history its current net generation, and to each storage unit's history its current output |
| Stats.RecordShortage | electric_waltz/scenario.py:223 | appends the step's shortage and changes nothing else |
| Stats.SweepReadingsConsistent | electric_waltz/scenario.py:114-122 | a sweep keeps a run consistent: only registered names have histories, a name registered n times holds n readings per step, and the terminal has one reading per step |
| Stats.AppendKeepsShape | electric_waltz/scenario.py:116-119 | appending one reading per listed name keeps a history map shaped, one sweep further |
| Stats.ComputeGeneration | electric_waltz/scenario.py:50-51 | an unrecorded source generated nothing |
| Stats.ComputeTotalCharging | electric_waltz/scenario.py:53-57 | the charged energy is non-negative; with one storage unit it is minus the sum of that unit's negative outputs |
| Stats.ComputeTotalDischarging | electric_waltz/scenario.py:59-63 | the discharged energy is non-negative; with one storage unit it is the sum of that unit's positive outputs |
| Stats.ComputeTotalDump | electric_waltz/scenario.py:65-66 | the dump is non-negative |
| Stats.ComputeTotalExport | electric_waltz/scenario.py:68-71 | the export is non-negative |
| Stats.ComputeTotalImport | electric_waltz/scenario.py:73-74 | the import is non-negative |
| Stats.ComputeTotalShortage | electric_waltz/scenario.py:76-77 | the shortage is non-negative |
| Stats.CountDumpSteps | electric_waltz/scenario.py:93-94 | at most one dump step per recorded step |
| Stats.CountShortageSteps | electric_waltz/scenario.py:107-108 | at most one shortage step per recorded step |
| Stats.CountExportSteps | electric_waltz/scenario.py:96-97 | at most one export step per recorded net import |
| Stats.CountImportSteps | electric_waltz/scenario.py:104-105 | at most one import step per recorded net import |
| Stats.CountGenerationSteps | electric_waltz/scenario.py:99-102 | at most one generating step per recorded reading |
| Stats.TotalsMatchCounts | electric_waltz/scenario.py:65-108 | import minus export is the summed net import, and shortage minus dump the summed shortage; each of these totals is positive exactly when its step count is; a source that generated something has a generating step; import and export steps together, and shortage and dump steps together, are at most the recorded steps |
| Stats.CountActiveSteps | electric_waltz/scenario.py:79-91 | the steps below n in which some history shows the direction: at most n |
| Stats.CountChargingSteps | electric_waltz/scenario.py:79-84 | at most one charging step per step of the run |
| Stats.CountDischargingSteps | electric_waltz/scenario.py:86-91 | at most one discharging step per step of the run |
| Stats.ConsistentCountable | electric_waltz/scenario.py:79-91 | in a consistent run every storage history spans the run, so the step counts can read every history at every step |
| Stats.CountActiveStepsIsCardinality | electric_waltz/scenario.py:79-91 | the step count is the size of that set |
| Stats.CountActiveStepsPositive | electric_waltz/scenario.py:79-91 | the step count is non-zero exactly when some step below n is active |
| Stats.CountActiveStepsSingle | electric_waltz/scenario.py:79-91 | with one recorded history, the charging and discharging counts are that history's negative and positive entries |
| Stats.ChargedOverPositive | electric_waltz/scenario.py:53-57 | the charged energy is positive exactly when some registered history has a negative entry |
| Stats.DischargedOverPositive | electric_waltz/scenario.py:59-63 | the discharged energy is positive exactly when some registered history has a positive entry |
| Stats.DistinctHistoriesSpanRun | electric_waltz/scenario.py:118-122 | with distinct storage names, every registered history has one entry per step |
| Stats.ActiveStepIffShown | electric_waltz/scenario.py:79-91 | with distinct storage names, some step is active in a direction exactly when some registered history shows it |
| Stats.StorageCountsMatchTotals | electric_waltz/scenario.py:53-91 | with distinct storage names, some step counts as charging exactly when some energy was charged, and likewise for discharging |
| Stats.StorageTotalsExample | tests/test_scenario.py:113-147 | a battery with outputs 0, −10 and 5 MW charged 10 MWh and discharged 5 MWh |
| Stats.StorageCountsExample | tests/test_scenario.py:149-183 | a battery with outputs 0, 100, 50, 40, −20, −40, −100, 20 charged in 3 steps and discharged in 4 |
| Scenarios.AllSources | electric_waltz/scenario.py:201-205 | the registered sources are exactly the baseloads, then the intermittents, then the flexibles, each group in its own order |
| Scenarios.NewScenario | electric_waltz/scenario.py:125-188 | construction fails with an assertion error exactly when the losses are outside [0, 1); otherwise with the dimensions error exactly when some capacity-factor series does not have one entry per load step; otherwise with the capacity-factor error exactly when some factor is outside [0, 1]; a built scenario has one step per load entry, keeps its inputs, and is valid when its sources are |
| Scenarios.SurplusStep | electric_waltz/scenario.py:239-256 | when the inflexible sources cover the consumption, the flexibles are shut down and nothing is discharged, dispatched or imported; the surplus is offered to storage first, and the charging and the units are exactly what the storage dispatcher returns for it; the export is what storage left, capped by the terminal capacity; without a terminal nothing is exported; the shortage is <= 0, and a dump happens only with the export at full capacity; under the unit contract inflexible generation = consumption + charging + export + dump |
| Scenarios.CoverDeficit | electric_waltz/scenario.py:264-281 | what is missing after storage is met by the flexibles in merit order, at min(missing, their maximum), or they are shut down when nothing is missing; the import is the rest, capped by the terminal capacity; generation + import + shortage = missing, and a shortage happens only with every flexible at its maximum and the import at full capacity |
| Scenarios.DeficitStep | electric_waltz/scenario.py:258-281 | otherwise nothing is charged or exported; the deficit is offered to storage first, and the discharging and the units are exactly what the storage dispatcher returns for it; the flexibles are dispatched at the remaining deficit if it is positive and shut down if not, whatever storage answered; the import is what storage and the flexibles left, capped by the terminal capacity; without a terminal nothing is imported; the shortage is >= 0; inflexible + discharging + flexible + import + shortage = consumption; a shortage happens only with every flexible at its maximum and the import at full capacity |
| Scenarios.Step | electric_waltz/scenario.py:227-281 | `_step` keeps the fleet's units and nameplates, leaves baseloads and intermittents as they are, keeps a sound terminal sound, and takes the surplus branch exactly when inflexible generation >= consumption |
| Scenarios.StepBalance | electric_waltz/scenario.py:239-281 | under the unit contract and with a non-negative terminal capacity, every step balances exactly: inflexible + discharging + flexible + import + shortage = consumption + charging + export, every flow is non-negative, and a step never both dumps and falls short |
| Scenarios.SetFactors | electric_waltz/scenario.py:217-218 | each intermittent's capacity factor becomes its factor for the step, and nothing else changes |
| Scenarios.Prepared | electric_waltz/scenario.py:214-218 | at the start of a step the intermittents follow the step's factors, and the rest of the fleet is unchanged |
| Scenarios.Registered | electric_waltz/scenario.py:201-211 | the run registers every source in baseload, intermittent, flexible order, the storage units and the terminal, and has recorded nothing |
| Scenarios.TakeStep | electric_waltz/scenario.py:213-220 | one step of the loop sets the step's factors and balances its gross consumption, extending a valid trace that follows the loop |
| Scenarios.Record | electric_waltz/scenario.py:221-223 | sweeping and appending the shortage keeps the run consistent |
| Scenarios.RecordExtends | electric_waltz/scenario.py:221-223 | recording a step extends the recorded shortages and net imports by that step's |
| Scenarios.HistoriesExtend | electric_waltz/scenario.py:221 | recording a step appends that step's readings to every history |
| Scenarios.RecordedHistories | electric_waltz/scenario.py:213-223 | after a run, every name's history is the readings listed under it, step by step; with distinct names, a source's history is its net generation after each step and a storage unit's history its output after each step |
| Scenarios.StepsKeepFleet | electric_waltz/scenario.py:213-223 | every step of a run leaves a fleet with the scenario's units |
| Scenarios.Advance | electric_waltz/scenario.py:213-223 | one pass of the loop (step, sweep, record) keeps the loop's state and adds one step |
| Scenarios.RunScenario | electric_waltz/scenario.py:190-225 | the run takes exactly one step per load entry, each following the loop from where the previous one left the fleet; it records the registrations, one sweep per step, every step's shortage and net import in order, and histories holding each step's readings |
| Scenarios.TraceBalanced | electric_waltz/scenario.py:213-281 | under the unit contract and with a non-negative terminal capacity, every step of a run balances |
| Scenarios.BaseloadOnlyStep | electric_waltz/scenario.py:239-281 | with only baseload sources, a step's shortage is the consumption minus the baseload's net generation, negative when it is a dump |
| Scenarios.BaseloadOnlyRun | electric_waltz/scenario.py:213-223 | with only baseload sources, every step records that raw imbalance |
| Scenarios.BaseloadOnlyReadings | electric_waltz/scenario.py:221 | with only baseload sources, every sweep reads the baseloads' net generation |
| Scenarios.NuclearAtFullOutput | electric_waltz/source.py:56-69 | a 1000 MW plant with no self-consumption at capacity factor 1 delivers 1000 MW net |
| Scenarios.NuclearOnlyExample | electric_waltz/scenario.py:213-256 | a 1000 MW nuclear plant against loads of 500, 1000 and 1500 MW records shortages of −500, 0 and 500 MW |
| Scenarios.NuclearHistoryIsColumn | electric_waltz/scenario.py:116-117 | with a single source, its recorded history is its net generation after each step |
| Scenarios.FullOutputColumn | electric_waltz/scenario.py:116-117 | three readings of 1000 MW make the history 1000, 1000, 1000 |
| Scenarios.NuclearOnlyGeneration | electric_waltz/scenario.py:50-51 | that plant's recorded history is 1000 MW in each step, 3000 MWh in all |
| Scenarios.NuclearOnlyRun | electric_waltz/scenario.py:190-225 | the nuclear-only scenario run end to end: 3 steps, shortages −500, 0 and 500 MW, and 3000 MWh generated |
| Tracing.NewCollector | electric_waltz/tracing.py:21-29 | a new collector is at step 0, has nothing registered and no history under any name |
| Tracing.AddPowerSources | electric_waltz/tracing.py:31-35 | the sources' names join the end of the registration list in the given order, and nothing else changes |
| Tracing.AddStorageUnits | electric_waltz/tracing.py:37-41 | the units' names join the end of the registration list in the given order, and nothing else changes |
| Tracing.GetSourceGeneration | electric_waltz/tracing.py:43-47 | nothing exactly for a name that never had a value appended, its history otherwise |
| Tracing.GetStorageOutput | electric_waltz/tracing.py:49-53 | nothing exactly for a name that never had a value appended, its history otherwise |
| Tracing.SweepReadings | electric_waltz/tracing.py:55-65 | a sweep adds exactly one step and keeps the registrations |
| Tracing.SweepReadingsHistories | electric_waltz/tracing.py:55-65 | after a sweep, a name has a history exactly when it had one or is registered, and its history grows by exactly the readings listed under it |
| Tracing.Sweep | electric_waltz/tracing.py:55-65 | `sweep` adds exactly one step and keeps the registrations |
| Tracing.SweepAppendsReadings | electric_waltz/tracing.py:59-63 | with distinct names, a sweep appends to each source's history its current net generation, and to each storage unit's history its current output |
| Tracing.SweepAll | electric_waltz/tracing.py:55-65 | n sweeps add n steps and keep the registrations |
| Tracing.SweepAllSourceHistory | electric_waltz/tracing.py:59-60 | with distinct source names, after any number of sweeps a source's history is what it had before followed by its readings, one per sweep, in order |
| Tracing.SweepAllStorageHistory | electric_waltz/tracing.py:62-63 | the same for storage units and their outputs |
| Tracing.SweepAllUnregistered | electric_waltz/tracing.py:43-53 | a name that is neither registered nor recorded is still looked up as nothing after any number of sweeps |
| Tracing.TwoSweepsExample | tests/test_tracing.py:11-46 | a 500 MW wind farm and storage units at 100 and 200 MW, swept twice, hold [500, 500], [100, 100] and [200, 200]; unregistered names hold nothing |

## Left out

- `sandbox/main.py` is left out. It holds command-line parsing, CSV and YAML loading, printing, CSV output and timing, all of which are input and output.
- `electric_waltz/__init__.py` is left out: it is a placeholder that only prints.
- `electric_waltz/types.py` is left out: it holds type aliases only. Power and energy are `real`.
- The physics of `EnergyStorage` and `ThermalPowerPlant` is not part of this model. The tests use both classes, but neither is defined in the files modelled. Storage units are the abstract interface described above.
- Floating point is not modelled; arithmetic is exact over the reals.
  - The `1e-6` tolerance of `StorageDispatcher` is not modelled. Under the unit contract the total never exceeds the request, so its assertion holds with no tolerance.
  - The `max(0, ...)` clamps of `_step` are modelled as written, and `Scenarios.StepBalance` shows that they never change the result over the reals.
- Reading a `defaultdict` inserts an empty list under a missing name (`compute_generation`, `compute_total_charging`, and so on). The model does not do this.
  - The insertion adds an empty history, which changes no total, no count and no later sweep.
  - It could change only the membership test of `count_charging_steps`, and there it adds a history with nothing to show.
- Aliasing between the lists passed to constructors and the caller's lists is not modelled. Objects are values; registration is by name.
  - An object listed twice, say one flexible unit twice in the merit order, is modelled as two independent units. Python would dispatch that one object twice, and both of its sweeps would read its last state.
- `Scenarios.RunScenario` also returns the trace of the steps it took, which the Python method does not. The trace exists to state what was recorded.
- The `StepResult` flows (charging, export, discharging, flexible generation and import) are local values of `_step`. They are kept so that the balance can be stated.
- Default arguments are not modelled: callers pass every value explicitly. The Python defaults are `self_consumption=0.0` and `utilisation=1.0` of `PowerSource` (electric_waltz/source.py:24-25), `efficiency=1.0` of `StorageAggregate` (electric_waltz/storage.py:13), `cross_border=None` of `ScenarioRun` and `Scenario` (electric_waltz/scenario.py:29 and 134) and `grid_losses=0.0` of `Scenario` (electric_waltz/scenario.py:135). `NewPowerSource`, `NewStorageAggregate`, `NewRun` and `NewScenario` take them as ordinary parameters.
- Some scenario tests pass `demand=`, but `Scenario` takes `load=`. The model follows the code.
- Stats.SweepAppendsReadings: the per-object statement needs distinct names; with repeated names `Stats.SweepReadingsHistories` gives the general form.
- Stats.StorageCountsMatchTotals: stated for distinct storage names only, because a name registered twice is counted twice by the totals.
- Tracing.SweepAllSourceHistory: stated for distinct source names; `Tracing.SweepReadingsHistories` covers repeated names one sweep at a time.
- Tracing.SweepAllStorageHistory: stated for distinct storage names, for the same reason.
- Tracing.SweepAppendsReadings: needs distinct names, as `Stats.SweepAppendsReadings` does.
- Scenarios.StepBalance: holds only under the unit contract and with a non-negative terminal capacity. The code checks neither.
- Scenarios.TraceBalanced: holds under the same two conditions.
- Scenarios.SurplusStep: the flow bounds and the balance are stated under the same two conditions.
- Scenarios.DeficitStep: the flow bounds and the balance are stated under the same two conditions.
- Scenarios.CoverDeficit: with a terminal, the import bound and the balance are stated for a non-negative capacity only, because the constructor does not check the capacity.
- CrossBorder.ExportAt: the export is non-negative only when the capacity is, because the constructor does not check the capacity.
- CrossBorder.ImportAt: the import is non-negative only when the capacity is, for the same reason.
- Storage.TryCharge: the reservoir bounds are stated for non-negative offers only, because the offer's sign is not checked.
- Dispatch.ChargeStorage: the bound [0, request] and the kept names hold under the unit contract only.
- Dispatch.DischargeStorage: the bound [0, request] and the kept names hold under the unit contract only.
