/** A fiber as the object it is: what SwitchTo and SwitchBack record.  The operating system's switch itself
    is the result of the method. */
module FiberObject {

  datatype Outcome = SwitchedTo(fiber: Fiber) | Threw

  class Fiber {
    var created: bool               // _fiber is not null
    var userData: nat
    var returnFiber: Fiber?

    constructor ()
      ensures created && returnFiber == null
    {
      created, userData, returnFiber := true, 0, null;
    }

    method SwitchTo(fiber: Fiber?, userData: nat) returns (r: Outcome)
      modifies if fiber == null then {} else {fiber}
      ensures r.Threw? <==> fiber == null || !old(fiber.created)
      ensures r.SwitchedTo? ==>
                r.fiber == fiber && fiber.returnFiber == this && fiber.userData == userData && fiber.created
      ensures r.Threw? && fiber != null ==>
                fiber.returnFiber == old(fiber.returnFiber) && fiber.userData == old(fiber.userData) && !fiber.created
    {
      if fiber == null || !fiber.created {
        return Threw;
      }
      fiber.userData := userData;
      fiber.returnFiber := this;
      return SwitchedTo(fiber);
    }

    method SwitchBack() returns (r: Outcome)
      ensures r == if returnFiber != null && returnFiber.created then SwitchedTo(returnFiber) else Threw
    {
      if returnFiber != null && returnFiber.created {
        return SwitchedTo(returnFiber);
      }
      return Threw;
    }
  }
}
