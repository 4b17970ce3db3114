/** Guards on the execution of a technique item. */
module Conditions {

  /** `Defined` always runs, `NotDefined` never runs, and `Expression(e)`
      runs when the agent evaluates the class expression `e` to true. */
  datatype Condition = Defined | NotDefined | Expression(expr: string)

  /** Whether the guard lets its item run, given the agent's truth value
      for every class expression. */
  function Holds(c: Condition, env: string -> bool): bool
  {
    match c
    case Defined => true
    case NotDefined => false
    case Expression(e) => env(e)
  }
}
