/** The storage aggregate (`electric_waltz/storage.py`): the pooled
    capacity of one kind of storage, a bounded energy reservoir that starts
    empty. */
module Storage {
  import opened Common

  datatype StorageAggregate = StorageAggregate(
    capacity: real,    // nominal installed power, MW
    maxEnergy: real,   // reservoir size, MWh
    efficiency: real,  // round-trip efficiency, in (0, 1]
    energy: real       // energy currently stored, MWh
  ) {
    /** The constructor's checks together with the reservoir bound. */
    predicate Valid() {
      && 0.0 < capacity
      && 0.0 < maxEnergy
      && 0.0 < efficiency <= 1.0
      && 0.0 <= energy <= maxEnergy
    }

    predicate FullyCharged() {
      energy == maxEnergy
    }

    /** Energy that can still be stored, MWh. */
    function RemainingCapacity(): real {
      maxEnergy - energy
    }
  }

  /** The constructor: capacity and reservoir positive, efficiency in (0, 1];
      the reservoir starts empty. */
  function NewStorageAggregate(capacity: real, maxEnergy: real, efficiency: real): (r: Result<StorageAggregate>)
    ensures r.Ok? <==> 0.0 < capacity && 0.0 < maxEnergy && 0.0 < efficiency <= 1.0
    ensures r.Ok? ==> && r.value.Valid()
                      && r.value.capacity == capacity && r.value.maxEnergy == maxEnergy
                      && r.value.efficiency == efficiency
                      && r.value.RemainingCapacity() == maxEnergy && !r.value.FullyCharged()
    ensures r.Err? ==> r.error == AssertionError
  {
    if 0.0 < capacity && 0.0 < maxEnergy && 0.0 < efficiency <= 1.0 then
      Ok(StorageAggregate(capacity, maxEnergy, efficiency, 0.0))
    else
      Err(AssertionError)
  }

  /** Offer `energy` MWh to the reservoir; the result is the part it could
      not take. What is taken plus what is returned is always the offer. A
      full reservoir takes nothing; an offer above the remaining room fills
      it; a smaller one is taken whole. Only the stored energy changes: the
      power capacity and the efficiency play no part. The offer is not
      checked for sign, so the reservoir bounds are kept only for
      non-negative offers. */
  function TryCharge(s: StorageAggregate, energy: real): (r: (StorageAggregate, real))
    ensures r.0.capacity == s.capacity && r.0.maxEnergy == s.maxEnergy && r.0.efficiency == s.efficiency
    ensures (r.0.energy - s.energy) + r.1 == energy
    ensures s.FullyCharged() ==> r.1 == energy && r.0.energy == s.energy
    ensures !s.FullyCharged() && energy > s.RemainingCapacity() ==> r.0.FullyCharged() && r.1 == energy - s.RemainingCapacity()
    ensures !s.FullyCharged() && energy <= s.RemainingCapacity() ==> r.1 == 0.0
    ensures s.Valid() && 0.0 <= energy ==> r.0.Valid() && 0.0 <= r.1 <= energy
  {
    if s.FullyCharged() then
      (s, energy)
    else if energy > s.RemainingCapacity() then
      (s.(energy := s.maxEnergy), energy - s.RemainingCapacity())
    else
      (s.(energy := s.energy + energy), 0.0)
  }

  /** For a non-negative offer the reservoir takes exactly the smaller of the
      offer and its remaining room. */
  lemma TryChargeTakesWhatFits(s: StorageAggregate, energy: real)
    requires s.Valid() && 0.0 <= energy
    ensures TryCharge(s, energy).0.energy - s.energy == Min(energy, s.RemainingCapacity())
    ensures TryCharge(s, energy).1 == energy - Min(energy, s.RemainingCapacity())
  {
  }
}
