/** Power sources (`electric_waltz/source.py`): a nameplate capacity, a
    self-consumption share and a capacity factor. Non-dispatchable sources
    have their capacity factor pushed from outside; dispatchable ones set it
    from a power request. Both kinds are one datatype here: the two Python
    subclasses differ only in which operations the driver calls on them. */
module Sources {
  import opened Common
  import opened Reductions

  datatype PowerSource = PowerSource(
    name: string,
    nominal: real,          // nameplate capacity, MW
    selfConsumption: real,  // share of the generation the source uses itself
    utilisation: real       // current capacity factor
  ) {
    /** What the constructor checks, and every mutation keeps. */
    predicate Valid() {
      && 0 < |name|
      && 0.0 < nominal
      && 0.0 <= selfConsumption < 1.0
      && 0.0 <= utilisation <= 1.0
    }

    /** Gross generation, MW. */
    function Generation(): real {
      utilisation * nominal
    }

    /** Generation net of the source's own consumption, MW. */
    function NetGeneration(): real {
      Generation() * (1.0 - selfConsumption)
    }

    /** The most net power the source can deliver (at capacity factor 1). */
    function MaxNetPower(): real {
      nominal * (1.0 - selfConsumption)
    }
  }

  /** The constructor: every parameter must lie in its domain. */
  function NewPowerSource(name: string, nominal: real, selfConsumption: real, utilisation: real): (r: Result<PowerSource>)
    ensures r.Ok? <==> 0 < |name| && 0.0 < nominal && 0.0 <= selfConsumption < 1.0 && 0.0 <= utilisation <= 1.0
    ensures r.Ok? ==> r.value.Valid() && r.value.name == name && r.value.nominal == nominal
                      && r.value.selfConsumption == selfConsumption && r.value.utilisation == utilisation
    ensures r.Err? ==> r.error == AssertionError
  {
    if 0 < |name| && 0.0 < nominal && 0.0 <= selfConsumption < 1.0 && 0.0 <= utilisation <= 1.0 then
      Ok(PowerSource(name, nominal, selfConsumption, utilisation))
    else
      Err(AssertionError)
  }

  /** Output of a valid source is bounded by its nameplate: gross generation
      by the nominal capacity, net generation by gross generation and by the
      maximum net power. */
  lemma GenerationBounds(s: PowerSource)
    requires s.Valid()
    ensures 0.0 <= s.NetGeneration() <= s.Generation() <= s.nominal
    ensures s.NetGeneration() <= s.MaxNetPower()
    ensures 0.0 < s.MaxNetPower() <= s.nominal
  {
    GrossWithinNominal(s);
    NetWithinGross(s);
    MaxNetPowerPositive(s);
    NetWithinMax(s);
  }

  lemma GrossWithinNominal(s: PowerSource)
    requires s.Valid()
    ensures 0.0 <= s.Generation() <= s.nominal
  {
    assert s.Generation() == s.utilisation * s.nominal;
    ScaleNonNegative(s.utilisation, s.nominal);
    ShareDown(s.utilisation, s.nominal);
  }

  lemma NetWithinGross(s: PowerSource)
    requires s.Valid()
    ensures 0.0 <= s.NetGeneration() <= s.Generation()
  {
    var g := s.Generation();
    assert 0.0 <= g by { GrossWithinNominal(s); }
    ScaleNonNegative(g, 1.0 - s.selfConsumption);
    ScaleDown(g, 1.0 - s.selfConsumption);
    assert s.NetGeneration() == g * (1.0 - s.selfConsumption);
  }

  lemma MaxNetPowerPositive(s: PowerSource)
    requires s.Valid()
    ensures 0.0 < s.MaxNetPower() <= s.nominal
  {
    ScalePositive(s.nominal, 1.0 - s.selfConsumption);
    ScaleDown(s.nominal, 1.0 - s.selfConsumption);
  }

  lemma NetWithinMax(s: PowerSource)
    requires s.Valid()
    ensures s.NetGeneration() <= s.MaxNetPower()
  {
    var m := s.MaxNetPower();
    assert 0.0 <= m by { MaxNetPowerPositive(s); }
    ShareDown(s.utilisation, m);
    NetIsShareOfMax(s);
  }

  // Products of non-negative reals, one fact per lemma so that each use
  // names exactly the product it needs.

  lemma ScaleNonNegative(x: real, f: real)
    requires 0.0 <= x && 0.0 <= f
    ensures 0.0 <= x * f
  {
  }

  lemma ScalePositive(x: real, f: real)
    requires 0.0 < x && 0.0 < f
    ensures 0.0 < x * f
  {
  }

  /** Scaling by a factor in [0, 1] does not increase a non-negative amount. */
  lemma ScaleDown(x: real, f: real)
    requires 0.0 <= x && 0.0 <= f <= 1.0
    ensures x * f <= x
  {
    assert 0.0 <= x * (1.0 - f);
  }

  lemma ShareDown(f: real, x: real)
    requires 0.0 <= x && 0.0 <= f <= 1.0
    ensures f * x <= x
  {
    assert 0.0 <= (1.0 - f) * x;
  }

  /** Net generation is the capacity factor times the maximum net power. */
  lemma NetIsShareOfMax(s: PowerSource)
    ensures s.NetGeneration() == s.utilisation * s.MaxNetPower()
  {
    assert (s.utilisation * s.nominal) * (1.0 - s.selfConsumption)
        == s.utilisation * (s.nominal * (1.0 - s.selfConsumption));
  }

  /** The `utilisation` setter: stores exactly the given capacity factor;
      gross and net generation follow it and nothing else changes. */
  function SetUtilisation(s: PowerSource, value: real): (r: PowerSource)
    requires 0.0 <= value <= 1.0
    ensures r.name == s.name && r.nominal == s.nominal && r.selfConsumption == s.selfConsumption
    ensures r.utilisation == value
    ensures r.Generation() == value * s.nominal
    ensures s.Valid() ==> r.Valid()
  {
    s.(utilisation := value)
  }

  /** Dispatch a source at `power` MW: the capacity factor becomes the share
      of the maximum net power requested, capped at 1, and the result is the
      net generation that follows. */
  function DispatchAt(s: PowerSource, power: real): (r: (PowerSource, real))
    requires s.Valid() && 0.0 <= power
    ensures r.0.Valid()
    ensures r.0.name == s.name && r.0.nominal == s.nominal && r.0.selfConsumption == s.selfConsumption
    ensures r.1 == r.0.NetGeneration()
    ensures power <= s.MaxNetPower() ==> r.1 == power && r.0.utilisation * s.MaxNetPower() == power
    ensures s.MaxNetPower() < power ==> r.1 == s.MaxNetPower() && r.0.utilisation == 1.0
    ensures 0.0 <= r.1 <= power
  {
    MaxNetPowerPositive(s);
    DispatchShare(power, s.MaxNetPower());
    var s' := s.(utilisation := Min(power / s.MaxNetPower(), 1.0));
    NetIsShareOfMax(s');
    (s', s'.NetGeneration())
  }

  /** The share of the maximum requested, `power / maxNetPower`, is at most 1
      exactly when the request fits, and then recovers the request exactly. */
  lemma DispatchShare(power: real, maxNetPower: real)
    requires 0.0 <= power && 0.0 < maxNetPower
    ensures 0.0 <= power / maxNetPower
    ensures power / maxNetPower * maxNetPower == power
    ensures power <= maxNetPower <==> power / maxNetPower <= 1.0
  {
    var q := power / maxNetPower;
    assert q * maxNetPower == power;
    assert (q - 1.0) * maxNetPower == power - maxNetPower;
  }

  /** Force a source off, whatever it was producing. */
  function ShutDown(s: PowerSource): (r: PowerSource)
    ensures r.name == s.name && r.nominal == s.nominal && r.selfConsumption == s.selfConsumption
    ensures r.utilisation == 0.0 && r.Generation() == 0.0 && r.NetGeneration() == 0.0
    ensures s.Valid() ==> r.Valid()
  {
    s.(utilisation := 0.0)
  }

  // ---- Collections of sources ------------------------------------------------

  predicate AllValid(units: seq<PowerSource>) {
    forall i :: 0 <= i < |units| ==> units[i].Valid()
  }

  /** `after` holds the same units as `before`, in the same order, whatever
      their capacity factors. */
  predicate SameUnits(after: seq<PowerSource>, before: seq<PowerSource>) {
    && |after| == |before|
    && forall i :: 0 <= i < |before| ==>
         && after[i].name == before[i].name
         && after[i].nominal == before[i].nominal
         && after[i].selfConsumption == before[i].selfConsumption
  }

  /** Sum of net generation, left to right: the `net_generation` of a
      dispatcher and the inflexible generation of a scenario step. */
  function TotalNetGeneration(units: seq<PowerSource>): real
  {
    if |units| == 0 then 0.0 else units[0].NetGeneration() + TotalNetGeneration(units[1..])
  }

  /** Sum of the maximum net powers of a merit-order list. */
  function TotalMaxNetPower(units: seq<PowerSource>): real
  {
    if |units| == 0 then 0.0 else units[0].MaxNetPower() + TotalMaxNetPower(units[1..])
  }

  lemma {:induction false} TotalNetGenerationBounds(units: seq<PowerSource>)
    requires AllValid(units)
    ensures 0.0 <= TotalNetGeneration(units) <= TotalMaxNetPower(units)
  {
    if |units| > 0 {
      GenerationBounds(units[0]);
      TotalNetGenerationBounds(units[1..]);
    }
  }

  lemma {:induction false} TotalNetGenerationAppend(a: seq<PowerSource>, b: seq<PowerSource>)
    ensures TotalNetGeneration(a + b) == TotalNetGeneration(a) + TotalNetGeneration(b)
  {
    if |a| > 0 {
      assert (a + b)[1..] == a[1..] + b;
      TotalNetGenerationAppend(a[1..], b);
    } else {
      assert a + b == b;
    }
  }

  /** The units' names, in order: the keys their histories are recorded under. */
  function SourceNames(units: seq<PowerSource>): (r: seq<string>)
    ensures |r| == |units|
    ensures forall i :: 0 <= i < |units| ==> r[i] == units[i].name
  {
    if |units| == 0 then [] else [units[0].name] + SourceNames(units[1..])
  }

  /** The units' current net generation, in order: one statistics reading. */
  function NetGenerations(units: seq<PowerSource>): (r: seq<real>)
    ensures |r| == |units|
    ensures forall i :: 0 <= i < |units| ==> r[i] == units[i].NetGeneration()
  {
    if |units| == 0 then [] else [units[0].NetGeneration()] + NetGenerations(units[1..])
  }

  /** A reading adds up to the fleet's net generation. */
  lemma {:induction false} NetGenerationsSum(units: seq<PowerSource>)
    ensures Sum(NetGenerations(units)) == TotalNetGeneration(units)
  {
    if |units| > 0 {
      assert NetGenerations(units)[1..] == NetGenerations(units[1..]);
      NetGenerationsSum(units[1..]);
    }
  }

  // ---- Worked cases from the repository's unit tests --------------------------

  /** 1000 MW at 10 % self-consumption and capacity factor 0.5: 500 MW gross,
      450 MW net. */
  lemma NetGenerationExample()
    ensures PowerSource("generic", 1000.0, 0.1, 0.5).Generation() == 500.0
    ensures PowerSource("generic", 1000.0, 0.1, 0.5).NetGeneration() == 450.0
  {
  }

  /** A 500 MW unit at 20 % self-consumption (400 MW net at most) echoes a
      200 MW request at capacity factor 0.5, and caps a 999 MW request at
      400 MW. */
  lemma DispatchExample()
    ensures DispatchAt(PowerSource("ccgt", 500.0, 0.2, 1.0), 200.0).1 == 200.0
    ensures DispatchAt(PowerSource("ccgt", 500.0, 0.2, 1.0), 200.0).0.utilisation == 0.5
    ensures DispatchAt(PowerSource("ccgt", 500.0, 0.2, 1.0), 999.0).1 == 400.0
  {
    assert PowerSource("ccgt", 500.0, 0.2, 1.0).Valid();
  }
}
