/**
 * What the charging policy asks of the hardware and of the power manager, as an
 * ordered log, and the 80/100 charge-ceiling mapping every ceiling write uses.
 */
module Actions {
  import opened Registers

  datatype Action =
    | SetCharging(enabled: bool)        // charging on (true) or off (false)
    | SetInhibit(inhibit: bool)         // force discharge on AC (true) or stop forcing (false)
    | SetCeiling(ceiling: Byte)         // the BCLM charge-ceiling byte
    | SetForceCharging(force: bool)
    | AllowSleep                        // release the no-idle-sleep assertion
    | PreventSleep(reason: string)      // take the no-idle-sleep assertion

  predicate IsRegisterAction(a: Action) {
    !a.AllowSleep? && !a.PreventSleep?
  }

  /**
   * The charge-ceiling register accepts only two values: any limit up to 80
   * maps to 80, anything above to 100.
   */
  function CeilingFor(limit: int): (ceiling: Byte)
    ensures ceiling == 80 || ceiling == 100
    ensures ceiling == 80 <==> limit <= 80
  {
    if limit <= 80 then 80 else 100
  }

  /** The ceiling never drops as the configured limit rises. */
  lemma CeilingForMonotone(a: int, b: int)
    requires a <= b
    ensures CeilingFor(a) <= CeilingFor(b)
  {
  }

  /** Every ceiling the log writes is one the register accepts. */
  predicate CeilingsValid(acts: seq<Action>) {
    forall i :: 0 <= i < |acts| && acts[i].SetCeiling? ==> acts[i].ceiling == 80 || acts[i].ceiling == 100
  }

  /** Whether the log contains a request to turn charging on. */
  predicate EnablesCharging(acts: seq<Action>) {
    SetCharging(true) in acts
  }
}
