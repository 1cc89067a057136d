/** A cross-border terminal (`electric_waltz/cross_border.py`): one
    interconnection with a nominal capacity. It keeps only the net import of
    the current step (negative when exporting); each request overwrites it. */
module CrossBorder {
  import opened Common

  datatype Terminal = Terminal(capacity: real, netImport: real)

  /** A new terminal has exchanged nothing yet. The constructor does not
      check the capacity. */
  function NewTerminal(capacity: real): (t: Terminal)
    ensures t.capacity == capacity && t.netImport == 0.0
  {
    Terminal(capacity, 0.0)
  }

  /** Export at most `power` MW: the terminal carries the request or its
      capacity, whichever is smaller, and records it as negative net import.
      The exported power lies in [0, power] when the capacity is not
      negative. */
  function ExportAt(t: Terminal, power: real): (r: (Terminal, real))
    requires 0.0 <= power
    ensures r.0.capacity == t.capacity
    ensures r.0.netImport == -r.1
    ensures r.1 <= power && r.1 <= t.capacity
    ensures r.1 == power || r.1 == t.capacity
    ensures 0.0 <= t.capacity ==> 0.0 <= r.1
  {
    var netImport := -Min(t.capacity, power);
    (t.(netImport := netImport), -netImport)
  }

  /** Import at most `power` MW, bounded by the capacity in the same way, and
      recorded as positive net import. */
  function ImportAt(t: Terminal, power: real): (r: (Terminal, real))
    requires 0.0 <= power
    ensures r.0.capacity == t.capacity
    ensures r.0.netImport == r.1
    ensures r.1 <= power && r.1 <= t.capacity
    ensures r.1 == power || r.1 == t.capacity
    ensures 0.0 <= t.capacity ==> 0.0 <= r.1
  {
    var netImport := Min(t.capacity, power);
    (t.(netImport := netImport), netImport)
  }

  /** Requests overwrite rather than accumulate: whatever the terminal did
      before, an export or an import leaves it exactly as the same request
      would leave a new terminal of that capacity. */
  lemma RequestsOverwrite(t: Terminal, power: real)
    requires 0.0 <= power
    ensures ExportAt(t, power) == ExportAt(NewTerminal(t.capacity), power)
    ensures ImportAt(t, power) == ImportAt(NewTerminal(t.capacity), power)
  {
  }

  // ---- Worked cases from the repository's unit tests --------------------------

  /** A 5000 MW terminal exports 5000 of 6000 MW requested; exporting 4000 MW
      and then importing 3000 MW leaves a net import of 3000 MW. */
  lemma TerminalExample()
    ensures NewTerminal(5000.0).netImport == 0.0
    ensures ExportAt(NewTerminal(5000.0), 6000.0).1 == 5000.0
    ensures ExportAt(NewTerminal(5000.0), 6000.0).0.netImport == -5000.0
    ensures ImportAt(ExportAt(NewTerminal(5000.0), 4000.0).0, 3000.0).0.netImport == 3000.0
  {
  }
}
