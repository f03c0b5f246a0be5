/** The module-level settings shared by the penetrance model: five counters,
    the risk table and the case and control targets. */
module Config {

  /** A snapshot of the five counters, in the order `reset` returns them. */
  datatype Counters = Counters(
    selectedCase: nat,
    selectedControl: nat,
    discardedInds: nat,
    numWtCases: nat,
    numMutControls: nat)

  const Zero := Counters(0, 0, 0, 0, 0)

  /** The globals of the settings module; `_selectInds` and `penetrance`
      overwrite them. */
  class Globals {
    var selectedCase: nat
    var selectedControl: nat
    var discardedInds: nat
    var numWtCases: nat
    var numMutControls: nat
    var risks: seq<real>
    var numCases: int
    var numControls: int

    function Counts(): Counters
      reads this
    {
      Counters(selectedCase, selectedControl, discardedInds, numWtCases, numMutControls)
    }

    /** No sampling run is in progress: every counter is zero. */
    predicate Idle()
      reads this
    {
      Counts() == Zero
    }

    /** The values the module starts with. */
    constructor ()
      ensures Idle()
      ensures risks == [1.0, 1.0, 1.0]
      ensures numCases == 1000 && numControls == 1000
    {
      selectedCase, selectedControl, discardedInds := 0, 0, 0;
      numWtCases, numMutControls := 0, 0;
      risks := [1.0, 1.0, 1.0];
      numCases, numControls := 1000, 1000;
    }
  }

  /** `reset()`: builds the zero 5-tuple in local variables and returns it.
      It has no `global` declaration, so it reads and changes no module state;
      callers zero the counters by assigning the tuple it returns. */
  method Reset() returns (selectedCase: nat, selectedControl: nat, discardedInds: nat, numWtCases: nat, numMutControls: nat)
    ensures Counters(selectedCase, selectedControl, discardedInds, numWtCases, numMutControls) == Zero
  {
    selectedCase := 0;
    selectedControl := 0;
    discardedInds := 0;
    numWtCases := 0;
    numMutControls := 0;
  }
}
