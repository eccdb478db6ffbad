/** How an effectful call ends. */
module Outcomes {
  /** How a step that can be cut short ends. `Died` is the end of the process: nothing runs afterwards, no guard is
      dropped. */
  datatype Outcome<T> = Fine(value: T) | Error(code: string) | Died {
    predicate IsFailure() { !Fine? }

    function PropagateFailure<U>(): Outcome<U>
      requires IsFailure()
    {
      if Died? then Died else Error(code)
    }

    function Extract(): T
      requires Fine?
    {
      value
    }
  }
}
