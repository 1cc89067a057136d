/** Merit-order dispatch (`electric_waltz/dispatch.py`). A dispatcher walks
    its units in list order and asks each for everything still missing,
    `max(0, power - served so far)`, never an even share. Besides the
    aggregate the Python methods return, each result here lists the request
    every unit received and what it answered. */
module Dispatch {
  import opened Common
  import opened Reductions
  import opened Sources
  import opened StorageUnits

  /** What a unit is asked for once `served` MW of `power` are covered. */
  function Residual(power: real, served: real): (r: real)
    ensures 0.0 <= r
    ensures served <= power ==> r == power - served
    ensures power <= served ==> r == 0.0
  {
    Max(0.0, power - served)
  }

  // ---- SourceDispatcher ---------------------------------------------------------

  datatype SourceDispatch = SourceDispatch(
    units: seq<PowerSource>,  // the units after the request, in merit order
    covered: seq<real>,       // what the units before unit i had generated
    requests: seq<real>,      // what unit i was asked for
    answers: seq<real>,       // what unit i answered
    generation: real          // the dispatcher's result
  )

  /** The loop of `SourceDispatcher.dispatch_at`, from the unit list's head,
      with `served` MW already generated by the units before it. */
  function DispatchFrom(units: seq<PowerSource>, power: real, served: real): (r: SourceDispatch)
    requires AllValid(units)
    ensures |r.units| == |units| && |r.covered| == |units| && |r.requests| == |units| && |r.answers| == |units|
    ensures SameUnits(r.units, units) && AllValid(r.units)
    ensures r.generation == served + Sum(r.answers)
    ensures TotalNetGeneration(r.units) == Sum(r.answers)
    decreases |units|
  {
    if |units| == 0 then
      SourceDispatch([], [], [], [], served)
    else
      var request := Residual(power, served);
      var (unit, got) := DispatchAt(units[0], request);
      var rest := DispatchFrom(units[1..], power, served + got);
      assert ([got] + rest.answers)[1..] == rest.answers;
      assert ([unit] + rest.units)[1..] == rest.units;
      SourceDispatch([unit] + rest.units, [served] + rest.covered, [request] + rest.requests, [got] + rest.answers, rest.generation)
  }

  /** Once the request is covered the remaining units are asked for nothing,
      so with `served <= power` the loop generates the request or the units'
      whole maximum net power, whichever is smaller. */
  lemma {:induction false} DispatchFromTotal(units: seq<PowerSource>, power: real, served: real)
    requires AllValid(units) && served <= power
    ensures DispatchFrom(units, power, served).generation == served + Min(power - served, TotalMaxNetPower(units))
    decreases |units|
  {
    if |units| > 0 {
      var got := DispatchAt(units[0], Residual(power, served)).1;
      DispatchFromTotal(units[1..], power, served + got);
      TotalNetGenerationBounds(units[1..]);
    }
  }

  /** Unit i of the loop is asked for what is still missing once the units
      before it have generated `covered[i]`. */
  lemma {:induction false} DispatchFromRequest(units: seq<PowerSource>, power: real, served: real, i: nat)
    requires AllValid(units) && i < |units|
    ensures var r := DispatchFrom(units, power, served);
            r.requests[i] == Residual(power, r.covered[i])
    decreases i
  {
    if i > 0 {
      var r := DispatchFrom(units, power, served);
      var got := DispatchAt(units[0], Residual(power, served)).1;
      var rest := DispatchFrom(units[1..], power, served + got);
      assert r.requests == [Residual(power, served)] + rest.requests;
      assert r.covered == [served] + rest.covered;
      DispatchFromRequest(units[1..], power, served + got, i - 1);
    }
  }

  /** Unit i of the loop answers as a single source dispatched at its
      request. */
  lemma {:induction false} DispatchFromAnswer(units: seq<PowerSource>, power: real, served: real, i: nat)
    requires AllValid(units) && i < |units|
    ensures var r := DispatchFrom(units, power, served);
            0.0 <= r.requests[i] && DispatchAt(units[i], r.requests[i]) == (r.units[i], r.answers[i])
    decreases i
  {
    if i > 0 {
      var r := DispatchFrom(units, power, served);
      var (unit, got) := DispatchAt(units[0], Residual(power, served));
      var rest := DispatchFrom(units[1..], power, served + got);
      assert r.requests == [Residual(power, served)] + rest.requests;
      assert r.units == [unit] + rest.units && r.answers == [got] + rest.answers;
      assert units[i] == units[1..][i - 1];
      DispatchFromAnswer(units[1..], power, served + got, i - 1);
    }
  }

  /** What the units before unit i had generated is the sum of their
      answers. */
  lemma {:induction false} DispatchFromCovered(units: seq<PowerSource>, power: real, served: real, i: nat)
    requires AllValid(units) && i < |units|
    ensures var r := DispatchFrom(units, power, served);
            r.covered[i] == served + Sum(r.answers[..i])
    decreases i
  {
    var r := DispatchFrom(units, power, served);
    if i == 0 {
      assert r.answers[..0] == [];
    } else {
      var got := DispatchAt(units[0], Residual(power, served)).1;
      var rest := DispatchFrom(units[1..], power, served + got);
      assert r.covered == [served] + rest.covered;
      assert r.answers == [got] + rest.answers;
      DispatchFromCovered(units[1..], power, served + got, i - 1);
      SumConsPrefix(got, rest.answers, i - 1);
    }
  }

  /** The greedy requests have a closed form in the capacities: with
      `served <= power`, unit i is asked for what the units before it cannot
      cover at full output. */
  lemma {:induction false} RequestFromCapacities(units: seq<PowerSource>, power: real, served: real, i: nat)
    requires AllValid(units) && served <= power && i < |units|
    ensures DispatchFrom(units, power, served).requests[i]
            == Max(0.0, power - served - TotalMaxNetPower(units[..i]))
    decreases i
  {
    if i > 0 {
      var got := DispatchAt(units[0], Residual(power, served)).1;
      RequestFromCapacities(units[1..], power, served + got, i - 1);
      RequestAfterHead(units, power, served, i);
    }
  }

  /** One step of `RequestFromCapacities`: the head unit either covers the
      rest of the request or contributes its full maximum. */
  lemma RequestAfterHead(units: seq<PowerSource>, power: real, served: real, i: nat)
    requires AllValid(units) && served <= power && 0 < i < |units|
    ensures var got := DispatchAt(units[0], Residual(power, served)).1;
            Max(0.0, power - (served + got) - TotalMaxNetPower(units[1..][..i - 1]))
            == Max(0.0, power - served - TotalMaxNetPower(units[..i]))
  {
    var head := units[0];
    var tail := TotalMaxNetPower(units[1..][..i - 1]);
    assert units[..i][1..] == units[1..][..i - 1];
    assert TotalMaxNetPower(units[..i]) == head.MaxNetPower() + tail;
    TotalNetGenerationBounds(units[1..][..i - 1]);
  }

  /** `SourceDispatcher.dispatch_at`: dispatch `power` MW over the units in
      merit order. Afterwards the units' net generation adds up to the
      result, which is the request or the units' whole maximum net power,
      whichever is smaller. Only capacity factors change. */
  function DispatchSources(units: seq<PowerSource>, power: real): (r: SourceDispatch)
    requires AllValid(units) && 0.0 <= power
    ensures |r.units| == |units| && |r.requests| == |units| && |r.answers| == |units|
    ensures SameUnits(r.units, units) && AllValid(r.units)
    ensures r.generation == TotalNetGeneration(r.units)
    ensures r.generation == Min(power, TotalMaxNetPower(units))
    ensures 0.0 <= r.generation <= power
  {
    TotalNetGenerationBounds(units);
    DispatchFromTotal(units, power, 0.0);
    DispatchFrom(units, power, 0.0)
  }

  /** Unit by unit: each is asked for `max(0, power - generated so far)` and
      answers as a single source; the request is also `power` less the
      maximum net power of the units before it, when positive. */
  lemma DispatchSourcesUnit(units: seq<PowerSource>, power: real, i: nat)
    requires AllValid(units) && 0.0 <= power && i < |units|
    ensures var r := DispatchSources(units, power);
            && r.requests[i] == Residual(power, Sum(r.answers[..i]))
            && DispatchAt(units[i], r.requests[i]) == (r.units[i], r.answers[i])
            && r.requests[i] == Max(0.0, power - TotalMaxNetPower(units[..i]))
  {
    DispatchFromRequest(units, power, 0.0, i);
    DispatchFromAnswer(units, power, 0.0, i);
    DispatchFromCovered(units, power, 0.0, i);
    RequestFromCapacities(units, power, 0.0, i);
  }

  /** Dispatching nothing asks every unit for nothing, turns every unit off
      and yields nothing. */
  lemma DispatchNothing(units: seq<PowerSource>, i: nat)
    requires AllValid(units) && i < |units|
    ensures DispatchSources(units, 0.0).requests[i] == 0.0
    ensures DispatchSources(units, 0.0).units[i].utilisation == 0.0
    ensures DispatchSources(units, 0.0).generation == 0.0
  {
    var r := DispatchSources(units, 0.0);
    DispatchSourcesUnit(units, 0.0, i);
    assert AllValid(units[..i]);
    TotalNetGenerationBounds(units[..i]);
    assert r.requests[i] == 0.0;
    var u := r.units[i];
    MaxNetPowerPositive(u);
    NetIsShareOfMax(u);
    assert u.utilisation * u.MaxNetPower() == 0.0;
  }

  /** `SourceDispatcher.shut_down_all`: every unit is shut down, once. */
  function ShutDownAll(units: seq<PowerSource>): (r: seq<PowerSource>)
    ensures |r| == |units|
    ensures forall i :: 0 <= i < |units| ==> r[i] == ShutDown(units[i])
    ensures TotalNetGeneration(r) == 0.0
    ensures AllValid(units) ==> AllValid(r)
  {
    if |units| == 0 then []
    else
      var rest := ShutDownAll(units[1..]);
      assert ([ShutDown(units[0])] + rest)[1..] == rest;
      [ShutDown(units[0])] + rest
  }

  // ---- StorageDispatcher ----------------------------------------------------------

  datatype StorageDispatch<!U> = StorageDispatch(
    units: seq<U>,        // the units after the request, in list order
    covered: seq<real>,   // what the units before unit i had exchanged
    requests: seq<real>,  // what unit i was asked for
    answers: seq<real>,   // what unit i answered
    total: real           // the dispatcher's result
  )

  /** The loop shared by `StorageDispatcher.charge_at` and `discharge_at`:
      `act` is the unit's `charge_at` or `discharge_at`. If every unit stays
      within its request, the total stays within the request too. */
  function ChaseFrom<U(!new)>(act: (U, real) -> (U, real), units: seq<U>, power: real, served: real): (r: StorageDispatch<U>)
    ensures |r.units| == |units| && |r.covered| == |units| && |r.requests| == |units| && |r.answers| == |units|
    ensures r.total == served + Sum(r.answers)
    ensures WithinRequest(act) && served <= power ==> served <= r.total <= power
    decreases |units|
  {
    if |units| == 0 then
      StorageDispatch([], [], [], [], served)
    else
      var request := Residual(power, served);
      var (unit, got) := act(units[0], request);
      var rest := ChaseFrom(act, units[1..], power, served + got);
      assert ([got] + rest.answers)[1..] == rest.answers;
      StorageDispatch([unit] + rest.units, [served] + rest.covered, [request] + rest.requests, [got] + rest.answers, rest.total)
  }

  /** Unit i of the loop is asked for what is still missing once the units
      before it have exchanged `covered[i]`, and its answer is the unit's
      own. */
  lemma {:induction false} ChaseFromUnit<U(!new)>(act: (U, real) -> (U, real), units: seq<U>, power: real, served: real, i: nat)
    requires i < |units|
    ensures var r := ChaseFrom(act, units, power, served);
            && r.requests[i] == Residual(power, r.covered[i])
            && act(units[i], r.requests[i]) == (r.units[i], r.answers[i])
    decreases i
  {
    if i > 0 {
      var r := ChaseFrom(act, units, power, served);
      var (unit, got) := act(units[0], Residual(power, served));
      var rest := ChaseFrom(act, units[1..], power, served + got);
      assert r.requests == [Residual(power, served)] + rest.requests;
      assert r.covered == [served] + rest.covered;
      assert r.units == [unit] + rest.units && r.answers == [got] + rest.answers;
      assert units[i] == units[1..][i - 1];
      ChaseFromUnit(act, units[1..], power, served + got, i - 1);
    }
  }

  /** What the units before unit i had exchanged is the sum of their answers. */
  lemma {:induction false} ChaseFromCovered<U(!new)>(act: (U, real) -> (U, real), units: seq<U>, power: real, served: real, i: nat)
    requires i < |units|
    ensures var r := ChaseFrom(act, units, power, served);
            r.covered[i] == served + Sum(r.answers[..i])
    decreases i
  {
    var r := ChaseFrom(act, units, power, served);
    if i == 0 {
      assert r.answers[..0] == [];
    } else {
      var got := act(units[0], Residual(power, served)).1;
      var rest := ChaseFrom(act, units[1..], power, served + got);
      assert r.covered == [served] + rest.covered;
      assert r.answers == [got] + rest.answers;
      ChaseFromCovered(act, units[1..], power, served + got, i - 1);
      SumConsPrefix(got, rest.answers, i - 1);
    }
  }

  /** A loop whose requests keep the unit's name keeps every name. */
  lemma {:induction false} ChaseKeepsNames<U(!new)>(act: (U, real) -> (U, real), name: U -> string, units: seq<U>, power: real, served: real)
    ensures var r := ChaseFrom(act, units, power, served);
            KeepsName(act, name) ==> forall i :: 0 <= i < |units| ==> name(r.units[i]) == name(units[i])
  {
    var r := ChaseFrom(act, units, power, served);
    forall i | 0 <= i < |units| && KeepsName(act, name)
      ensures name(r.units[i]) == name(units[i])
    {
      ChaseFromUnit(act, units, power, served, i);
    }
  }

  /** `StorageDispatcher.charge_at`: the storage absorbs at most the offered
      power, and the units keep their names. */
  function ChargeStorage<U(!new)>(io: StorageInterface<U>, units: seq<U>, power: real): (r: StorageDispatch<U>)
    requires 0.0 <= power
    ensures |r.units| == |units| && |r.requests| == |units| && |r.answers| == |units|
    ensures r.total == Sum(r.answers)
    ensures Conforms(io) ==> 0.0 <= r.total <= power && Names(io, r.units) == Names(io, units)
  {
    ChaseKeepsNames(io.chargeAt, io.name, units, power, 0.0);
    ChaseFrom(io.chargeAt, units, power, 0.0)
  }

  /** `StorageDispatcher.discharge_at`: the storage delivers at most the
      requested power, and the units keep their names. */
  function DischargeStorage<U(!new)>(io: StorageInterface<U>, units: seq<U>, power: real): (r: StorageDispatch<U>)
    requires 0.0 <= power
    ensures |r.units| == |units| && |r.requests| == |units| && |r.answers| == |units|
    ensures r.total == Sum(r.answers)
    ensures Conforms(io) ==> 0.0 <= r.total <= power && Names(io, r.units) == Names(io, units)
  {
    ChaseKeepsNames(io.dischargeAt, io.name, units, power, 0.0);
    ChaseFrom(io.dischargeAt, units, power, 0.0)
  }

  /** Unit by unit: each storage unit is asked for `max(0, power - exchanged
      so far)` and answers on its own. */
  lemma StorageUnitRequests<U(!new)>(io: StorageInterface<U>, units: seq<U>, power: real, i: nat)
    requires 0.0 <= power && i < |units|
    ensures var c := ChargeStorage(io, units, power);
            && c.requests[i] == Residual(power, Sum(c.answers[..i]))
            && io.chargeAt(units[i], c.requests[i]) == (c.units[i], c.answers[i])
    ensures var d := DischargeStorage(io, units, power);
            && d.requests[i] == Residual(power, Sum(d.answers[..i]))
            && io.dischargeAt(units[i], d.requests[i]) == (d.units[i], d.answers[i])
  {
    ChaseFromUnit(io.chargeAt, units, power, 0.0, i);
    ChaseFromCovered(io.chargeAt, units, power, 0.0, i);
    ChaseFromUnit(io.dischargeAt, units, power, 0.0, i);
    ChaseFromCovered(io.dischargeAt, units, power, 0.0, i);
  }

  /** Under a unit contract that reports exchanged power as output, the
      storage units' outputs after charging add up to minus the absorbed
      power, and after discharging to the delivered power. */
  lemma StorageOutputsReportTotals<U(!new)>(io: StorageInterface<U>, units: seq<U>, power: real)
    requires 0.0 <= power && ReportsFlows(io)
    ensures Sum(Outputs(io, ChargeStorage(io, units, power).units)) == -ChargeStorage(io, units, power).total
    ensures Sum(Outputs(io, DischargeStorage(io, units, power).units)) == DischargeStorage(io, units, power).total
  {
    var c := ChargeStorage(io, units, power);
    var d := DischargeStorage(io, units, power);
    forall i | 0 <= i < |units|
      ensures Outputs(io, c.units)[i] == -c.answers[i]
      ensures Outputs(io, d.units)[i] == d.answers[i]
    {
      StorageUnitRequests(io, units, power, i);
    }
    SumNegated(Outputs(io, c.units), c.answers);
    assert Outputs(io, d.units) == d.answers;
  }

  // ---- Worked cases from the repository's unit tests --------------------------

  /** Three units of 100 MW net each, asked for 1000 MW, are asked for 1000,
      900 and 800 MW and together deliver 300 MW. */
  lemma MeritOrderShortExample(units: seq<PowerSource>, power: real)
    requires |units| == 3 && AllValid(units) && power == 1000.0
    requires units[0].MaxNetPower() == 100.0 && units[1].MaxNetPower() == 100.0 && units[2].MaxNetPower() == 100.0
    ensures DispatchSources(units, power).requests[0] == 1000.0
    ensures DispatchSources(units, power).requests[1] == 900.0
    ensures DispatchSources(units, power).requests[2] == 800.0
    ensures DispatchSources(units, power).generation == 300.0
  {
    CapacitiesOfThree(units);
    DispatchSourcesUnit(units, power, 0);
    DispatchSourcesUnit(units, power, 1);
    DispatchSourcesUnit(units, power, 2);
  }

  /** With units of 400, 400 and 200 MW net the requests are 1000, 600 and
      200 MW and the full 1000 MW is met. */
  lemma MeritOrderExactExample(units: seq<PowerSource>, power: real)
    requires |units| == 3 && AllValid(units) && power == 1000.0
    requires units[0].MaxNetPower() == 400.0 && units[1].MaxNetPower() == 400.0 && units[2].MaxNetPower() == 200.0
    ensures DispatchSources(units, power).requests[0] == 1000.0
    ensures DispatchSources(units, power).requests[1] == 600.0
    ensures DispatchSources(units, power).requests[2] == 200.0
    ensures DispatchSources(units, power).generation == 1000.0
  {
    CapacitiesOfThree(units);
    DispatchSourcesUnit(units, power, 0);
    DispatchSourcesUnit(units, power, 1);
    DispatchSourcesUnit(units, power, 2);
  }

  /** Prefix capacities of a three-unit merit order. */
  lemma CapacitiesOfThree(units: seq<PowerSource>)
    requires |units| == 3
    ensures TotalMaxNetPower(units[..0]) == 0.0
    ensures TotalMaxNetPower(units[..1]) == units[0].MaxNetPower()
    ensures TotalMaxNetPower(units[..2]) == units[0].MaxNetPower() + units[1].MaxNetPower()
    ensures TotalMaxNetPower(units) == units[0].MaxNetPower() + units[1].MaxNetPower() + units[2].MaxNetPower()
  {
    assert units[..1][1..] == [];
    assert units[..2][1..] == [units[1]] && units[..2][1..][1..] == [];
    assert units[1..] == [units[1], units[2]] && units[1..][1..] == [units[2]] && units[1..][1..][1..] == [];
    assert TotalMaxNetPower(units[1..][1..]) == units[2].MaxNetPower();
  }
}
