/**
 * The `/generate_team` request (app.py lines 13-80) from the player feed to
 * the rendered page: build the shortlist, formulate the problem, hand it to
 * the solver and summarise the answer. The feed is a parameter (fetching and
 * decoding it is not modelled) and so is the solver, a function from the
 * problem's objective and constraint list to its answer.
 */
module Handler {
  import opened Tables
  import opened Players
  import opened Filtering
  import opened Squad
  import opened Formulation
  import opened Solver
  import opened Summary

  /**
   * A solver that honours its contract and reports Optimal yields a page
   * that shows an accepted lineup of eleven rows within budget, whose total
   * projected points no accepted lineup beats; the page is shown exactly
   * when the status is Optimal.
   */
  lemma SolvedLineup(pool: seq<Row>, sol: Solution)
    requires Honours(Column(pool, Points), ProblemConstraints(pool), sol)
    ensures Respond(pool, sol).Rendered? <==> sol.status == Optimal
    ensures sol.status == Optimal ==>
      var sheet := Respond(pool, sol).sheet;
      && ValidLineup(pool, sol.values)
      && |sheet.team| == SQUAD_SIZE
      && sheet.totalCost == Dot(Column(pool, Cost), sol.values) <= BUDGET
      && sheet.totalPoints == Objective(pool, sol.values)
      && forall y :: ValidLineup(pool, y) ==> Objective(pool, y) <= sheet.totalPoints
  {
    if sol.status == Optimal {
      var x := sol.values;
      FormulationExact(pool, x);
      SelectionMatchesAssignment(pool, x);
      TotalsExact(pool, x);
      DotColumn(pool, x, Cost);
      var team := SelectedTeam(pool, SelectedIndices(x, |pool|));
      assert |SortDesc(team, EntryPoints)| == |multiset(team)| == |Rows(team)| == SQUAD_SIZE;
      forall y | ValidLineup(pool, y)
        ensures Objective(pool, y) <= Objective(pool, x)
      {
        FormulationExact(pool, y);
      }
    }
  }

  /** An assignment the squad rules reject is never an Optimal answer of a solver that honours its contract. */
  lemma RejectedNotOptimal(pool: seq<Row>, sol: Solution)
    requires Honours(Column(pool, Points), ProblemConstraints(pool), sol)
    requires !ValidLineup(pool, sol.values)
    ensures sol.status != Optimal
  {
    FormulationExact(pool, sol.values);
  }

  /**
   * A table without the supply for some squad rule (fewer than eleven rows,
   * no goalkeeper, fewer than three defenders, two midfielders or one
   * forward) cannot come back Optimal from a solver that honours its
   * contract, so the page shows the "no feasible solution" message.
   */
  lemma ShortSupplyFails(pool: seq<Row>, sol: Solution)
    requires Honours(Column(pool, Points), ProblemConstraints(pool), sol)
    requires ShortSupply(pool)
    ensures sol.status != Optimal
    ensures Respond(pool, sol) == Failed(NO_FEASIBLE)
  {
    NoLineupWithoutSupply(pool, sol.values);
    RejectedNotOptimal(pool, sol);
  }

  /** Every row of a page built from the shortlist carries a position label. */
  lemma ShortlistLabelled(players: seq<Player>, sol: Solution)
    ensures Respond(Shortlist(players), sol).Rendered? ==>
      forall m :: m in Respond(Shortlist(players), sol).sheet.team ==> m.position.Some?
  {
    var pool := Shortlist(players);
    ShortlistShape(players);
    PositionLabels(pool, sol.values);
    if Respond(pool, sol).Rendered? {
      forall m | m in Respond(pool, sol).sheet.team
        ensures m.position.Some?
      {
        var i :| 0 <= i < |pool| && pool[i] == m.row;
      }
    }
  }

  /**
   * The request: shortlist the feed, formulate the problem, solve it with
   * `solve` and render the answer. The page is `Respond` applied to the
   * solver's answer, so `CaptainIsTopTwo`, `TotalsExact` and
   * `PositionLabels` apply to it as well.
   */
  method GenerateTeam(players: seq<Player>, solve: (seq<int>, seq<Constraint>) -> Solution)
    returns (resp: Response)
    ensures var pool := Shortlist(players);
      var sol := solve(Column(pool, Points), ProblemConstraints(pool));
      && resp == Respond(pool, sol)
      && (sol.status != Optimal ==> resp == Failed(NO_FEASIBLE))
      && (sol.status == Optimal && Honours(Column(pool, Points), ProblemConstraints(pool), sol) ==>
            && resp.Rendered?
            && ValidLineup(pool, sol.values)
            && |resp.sheet.team| == SQUAD_SIZE
            && resp.sheet.totalCost == Dot(Column(pool, Cost), sol.values) <= BUDGET
            && resp.sheet.totalPoints == Objective(pool, sol.values)
            && forall y :: ValidLineup(pool, y) ==> Objective(pool, y) <= resp.sheet.totalPoints)
      && (resp.Rendered? ==> forall m :: m in resp.sheet.team ==> m.position.Some?)
  {
    var pool := Shortlist(players);
    var prob := Formulate(pool);
    var sol := solve(prob.objective, prob.constraints);
    resp := Respond(pool, sol);
    if Honours(prob.objective, prob.constraints, sol) {
      SolvedLineup(pool, sol);
    }
    ShortlistLabelled(players, sol);
  }
}
