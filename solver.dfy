/**
 * The solver call of line 56. The mixed-integer solver is foreign code; the
 * model does not implement it. It appears as a value of type `Solution`
 * handed back for a problem, and `Honours` is the contract that value is
 * assumed to meet: an Optimal status comes with one 0/1 value per variable
 * that satisfies every constraint and whose objective no other feasible
 * point beats. Any other status promises nothing.
 */
module Solver {
  import opened Formulation

  /** The statuses the solver reports. */
  datatype Status = NotSolved | Optimal | Infeasible | Unbounded | Undefined

  /**
   * The solver's answer: its status and each variable's value, `true` where
   * the value is 1. A variable it gave no value is missing from the end.
   */
  datatype Solution = Solution(status: Status, values: seq<bool>)

  /** The contract assumed of the solver for the problem "maximise `objective` subject to `constraints`". */
  ghost predicate Honours(objective: seq<int>, constraints: seq<Constraint>, sol: Solution)
  {
    sol.status == Optimal ==>
      && |sol.values| == |objective|
      && Satisfied(constraints, sol.values)
      && forall y :: |y| == |objective| && Satisfied(constraints, y) ==>
           Dot(objective, y) <= Dot(objective, sol.values)
  }
}
