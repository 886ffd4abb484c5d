/** What a wait registration is to the rest of the scheduler, whatever slot carries it: opened by the
    waiter, then either cancelled by the waiter itself or woken by somebody else, once. */
module Registry {

  datatype Status = Open | Cancelled | Woken

  datatype Registration = Registration(fiber: nat, flag: nat, status: Status)

  datatype Event =
    | Nothing
    | Opened(fiber: nat, flag: nat)
    | WasCancelled(id: nat)
    | WasWoken(id: nat)

  predicate Allowed(regs: seq<Registration>, e: Event) {
    match e
    case Nothing => true
    case Opened(_, _) => true
    case WasCancelled(id) => id < |regs| && regs[id].status == Open
    case WasWoken(id) => id < |regs| && regs[id].status == Open
  }

  function Apply(regs: seq<Registration>, e: Event): (r: seq<Registration>)
    requires Allowed(regs, e)
    ensures |regs| <= |r|
  {
    match e
    case Nothing => regs
    case Opened(fiber, flag) => regs + [Registration(fiber, flag, Open)]
    case WasCancelled(id) => regs[id := regs[id].(status := Cancelled)]
    case WasWoken(id) => regs[id := regs[id].(status := Woken)]
  }
}
