/** The per-thread record of the scheduler. */
module ThreadLocals {

  datatype FiberDestination = Nowhere | Waiting | Pool

  /** UINT16_MAX: no fiber. */
  const NO_FIBER: nat := 0xFFFF

  /** nullptr as a stored flag. */
  datatype FlagPointer = Null | Flag(id: nat)

  class TLS {
    var isIO: bool
    var currentFiber: nat
    var previousFiber: nat
    var previousStored: FlagPointer
    var previousDestination: FiberDestination
    var readyFibers: seq<(nat, nat)>      // fiber index and stored flag, oldest first

    constructor ()
      ensures !isIO && currentFiber == previousFiber == 0xFFFF && previousStored == Null
      ensures previousDestination == Nowhere && readyFibers == []
    {
      isIO := false;
      currentFiber, previousFiber := NO_FIBER, NO_FIBER;
      previousStored, previousDestination, readyFibers := Null, Nowhere, [];
    }

    method Cleanup()
      modifies this`previousFiber, this`previousStored, this`previousDestination
      ensures previousFiber == 0xFFFF && previousDestination == Nowhere && previousStored == Null
    {
      previousFiber := NO_FIBER;
      previousDestination := Nowhere;
      previousStored := Null;
    }
  }
}
