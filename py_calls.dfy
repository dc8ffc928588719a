/** How a Python call behaves when the caller passes more positional arguments
    than the callee declares: the call raises `TypeError` before the callee's
    body runs, so none of its effects happen. */
module PyCalls {
  import opened Text

  /** The outcome of a call: the callee returned, or the call raised. */
  datatype Call<T> = Returned(value: T) | Raised(kind: string, message: string)

  /** The message CPython gives for a call with too many positional arguments. */
  function TooManyArguments(name: string, declared: nat, given: nat): string {
    name + "() takes " + NatToString(declared)
      + (if declared == 1 then " positional argument but " else " positional arguments but ")
      + NatToString(given) + (if given == 1 then " was given" else " were given")
  }

  /** Whether a call with `given` positional arguments binds to a callee declaring
      `declared` parameters, `required` of them without a default. */
  function Bind(name: string, declared: nat, required: nat, given: nat): (r: Call<()>)
    requires required <= declared
    ensures r.Returned? <==> required <= given <= declared
    ensures given > declared ==> r == Raised("TypeError", TooManyArguments(name, declared, given))
  {
    if given > declared then Raised("TypeError", TooManyArguments(name, declared, given))
    else if given < required then Raised("TypeError", name + "() missing required positional argument")
    else Returned(())
  }

  /** `approve_manager_ticket(indent_id)` and `reject_manager_ticket(indent_id)` each declare one parameter. */
  const ApproveManagerTicket: string := "approve_manager_ticket"
  const RejectManagerTicket: string := "reject_manager_ticket"
}
