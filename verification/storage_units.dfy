/** The storage unit the dispatchers and the scenario drive. Its class,
    `EnergyStorage`, is imported by `electric_waltz/dispatch.py` and
    `electric_waltz/scenario.py` but is not part of this model, so a unit is
    an abstract state `U` together with the four things the engine uses: its
    name, its current output, and its charge and discharge requests. */
module StorageUnits {

  datatype StorageInterface<!U> = StorageInterface(
    name: U -> string,
    output: U -> real,                  // negative while charging, positive while discharging
    chargeAt: (U, real) -> (U, real),   // new state and the power absorbed
    dischargeAt: (U, real) -> (U, real) // new state and the power delivered
  )

  /** A request is answered with a power in [0, request]. */
  ghost predicate WithinRequest<U(!new)>(act: (U, real) -> (U, real))
  {
    forall u, p :: 0.0 <= p ==> 0.0 <= act(u, p).1 <= p
  }

  /** A request never renames the unit. */
  ghost predicate KeepsName<U(!new)>(act: (U, real) -> (U, real), name: U -> string)
  {
    forall u, p :: name(act(u, p).0) == name(u)
  }

  /** The contract the merit-order dispatchers rely on: charging and
      discharging stay within the request and keep the unit's name. */
  ghost predicate Conforms<U(!new)>(io: StorageInterface<U>)
  {
    && WithinRequest(io.chargeAt) && WithinRequest(io.dischargeAt)
    && KeepsName(io.chargeAt, io.name) && KeepsName(io.dischargeAt, io.name)
  }

  /** A further, optional contract: after a request the unit reports as its
      output the power it just exchanged, negated when charging. */
  ghost predicate ReportsFlows<U(!new)>(io: StorageInterface<U>)
  {
    && (forall u, p :: io.output(io.chargeAt(u, p).0) == -io.chargeAt(u, p).1)
    && (forall u, p :: io.output(io.dischargeAt(u, p).0) == io.dischargeAt(u, p).1)
  }

  function Names<U>(io: StorageInterface<U>, units: seq<U>): (r: seq<string>)
    ensures |r| == |units|
    ensures forall i :: 0 <= i < |units| ==> r[i] == io.name(units[i])
  {
    if |units| == 0 then [] else [io.name(units[0])] + Names(io, units[1..])
  }

  function Outputs<U>(io: StorageInterface<U>, units: seq<U>): (r: seq<real>)
    ensures |r| == |units|
    ensures forall i :: 0 <= i < |units| ==> r[i] == io.output(units[i])
  {
    if |units| == 0 then [] else [io.output(units[0])] + Outputs(io, units[1..])
  }
}
