# Fantasy Premier League lineup generator — a Dafny model

The `/generate_team` request in `app.py` picks a starting eleven for Fantasy
Premier League. Its work has four steps.

1. Build a shortlist from the player feed. It keeps the players whose
   status is available (`a`) or doubtful (`d`). Within each position
   (1 GK, 2 DEF, 3 MID, 4 FWD) it keeps the 20 with the highest projected
   points (`ep_next`). The four groups are stacked in that order, and nine
   columns are kept.
2. Pose an integer program with one binary variable per shortlisted row:
   - maximise the chosen rows' projected points;
   - exactly 11 rows;
   - exactly 1 goalkeeper;
   - 3-5 defenders, 2-5 midfielders and 1-3 forwards;
   - a total cost of at most 8500;
   - at most 3 rows per team.
3. Hand the program to a solver.
4. Summarise the answer. On an Optimal status the page shows:
   - the rows whose variable is 1;
   - their total cost and total projected points;
   - the two highest-ranked rows as captain and vice-captain;
   - each row's position label.

   Any other status shows "No feasible solution found. Consider relaxing
   constraints."

The model has one module per step:

- `Tables`: the table operations used, namely row filter, descending sort, `head(k)` and column sum.
- `Players`: the feed record and the shortlisted row.
- `Filtering`: the shortlist.
- `Squad`: the squad rules. `ValidLineup` states them directly on the rows an assignment picks.
- `Formulation`: the program as data, plus the class `LpProblem` that the constraints are appended to.
  - The method `Formulate` builds it as the code does: objective first, then nine fixed constraints, then a loop adding one team cap per distinct team.
  - It is proved to admit exactly the assignments `ValidLineup` accepts.
- `Solver`: the solver's answer. The solver itself is not modelled; `Honours` is the contract its answer is assumed to meet.
  - An Optimal status comes with a 0/1 value per variable.
  - That point satisfies every constraint.
  - No other feasible point has a higher objective.
- `Summary`: the summary step and the two page outcomes.
- `Handler`: the request from feed to page, `GenerateTeam`. It takes the feed and the solver as parameters.

## Model

| member | source | states |
|---|---|---|
| Tables.Filter | app.py:23 | the kept rows are exactly the input rows that satisfy the condition, and there are never more of them than input rows |
| Tables.SortDesc | app.py:26-29 | the sorted table is ordered by the key, highest first, and is a permutation of the input |
| Tables.Take | app.py:26-29 | `head(k)` returns the prefix of exactly min(k, rows) rows: the first k rows, or the whole table when it has at most k rows |
| Tables.TakeKeepsBest | app.py:26-29 | in a table sorted highest first, a row that `head(k)` cuts ranks no higher than any row it keeps |
| Filtering.Pool | app.py:23-29 | a player is in the pool of position t iff it is in the feed, its status is `a` or `d`, and its type is t |
| Filtering.Group | app.py:26-29 | a position group has at most 20 players, is ordered by projected points highest first, and is drawn from that position's pool without repeats |
| Filtering.GroupSize | app.py:26-29 | a position group holds exactly 20 players when more than 20 are eligible, and all of the eligible players otherwise |
| Filtering.Candidates | app.py:31 | definition: the four groups stacked GK, DEF, MID, FWD; `ShortlistShape` and `PositionRows` give its size, order and per-position contents |
| Filtering.Shortlist | app.py:31-32 | the table has one row per stacked candidate, in order, each row carrying that candidate's nine columns |
| Filtering.CandidatesEligible | app.py:23-31 | every shortlisted player comes from the feed, is available or doubtful, and has a position code from 1 to 4 |
| Filtering.ShortlistShape | app.py:26-32 | the shortlist has at most 80 rows, every position code is 1-4, codes never decrease along the table, and projected points never increase within a code |
| Filtering.PositionRows | app.py:26-31 | the rows of position t in the shortlist are exactly t's group, in order, so there are at most 20 of them; a code outside 1-4 has none |
| Filtering.LeftOutRanksLower | app.py:26-29 | an eligible player left out of its position group has projected points no higher than any player kept in it |
| Filtering.SmallPoolKept | app.py:26-29 | a position with at most 20 eligible players keeps all of them |
| Squad.ValidLineup | app.py:42-54 | definition: the squad rules stated directly on the chosen rows; `FormulationExact` proves the constraint list equivalent to it |
| Squad.NoTeamOverCap | app.py:52-54 | in an accepted lineup no team value, whether or not it occurs in the table, has more than 3 chosen rows |
| Squad.NoLineupWithoutSupply | app.py:42-49 | a table with fewer than 11 rows, no goalkeeper, or fewer than 3 defenders, 2 midfielders or 1 forward has no accepted lineup |
| Formulation.Objective | app.py:39 | definition: the projected points weighted by the variables; `DotColumn` and `TotalsExact` prove it equal to the chosen rows' projected-points sum |
| Formulation.FixedConstraints | app.py:42-50 | the nine constraints, each over exactly one coefficient per row, in the order the code adds them; `FixedExact` gives their meaning |
| Formulation.TeamCaps | app.py:53-54 | one cap constraint (`TeamCap`: at most 3 among that team's rows) per listed team, in list order; `TeamCapsExact` gives their meaning |
| Formulation.ProblemConstraints | app.py:42-54 | the full list has 9 + (number of distinct teams) constraints, each over exactly one coefficient per row; `FormulationExact` gives its meaning |
| Formulation.DotMask | app.py:42-49 | the sum of the variables over the rows of one kind equals the number of chosen rows of that kind |
| Formulation.DotColumn | app.py:50 | a column-weighted sum of the variables equals that column's sum over the chosen rows |
| Formulation.UniqueTeams | app.py:53 | the distinct teams hold each team of the table exactly once, and nothing else |
| Formulation.FixedExact | app.py:42-50 | the nine fixed constraints hold at a point iff the size, position and budget rules hold for the rows it chooses |
| Formulation.TeamCapsExact | app.py:52-54 | the per-team caps, one per distinct team, hold iff no chosen row has more than 3 chosen team-mates, itself included |
| Formulation.FormulationExact | app.py:42-54 | the whole constraint list is satisfied by a 0/1 point iff `ValidLineup` accepts it |
| Formulation.LpProblem.constructor | app.py:37-38 | a new problem over one variable per row, with no objective terms and no constraints |
| Formulation.LpProblem.SetObjective | app.py:39 | sets the objective and leaves the constraints as they were |
| Formulation.LpProblem.AddConstraint | app.py:42-54 | appends exactly one constraint at the end and leaves the objective as it was |
| Formulation.AddSquadRules | app.py:42-50 | appends the nine squad-rule constraints in source order and changes nothing else |
| Formulation.Formulate | app.py:37-54 | the built problem has one variable per row, the projected-points objective and the full constraint list, and admits exactly the assignments `ValidLineup` accepts |
| Solver.Honours | app.py:56 | definition of the assumed solver contract: an Optimal answer has one value per variable, satisfies every constraint, and no feasible point has a higher objective |
| Summary.SelectedIndices | app.py:59 | the selected indices are exactly the row indices whose variable is 1, in increasing order |
| Summary.SelectedTeam | app.py:60 | entry k of the selected team is row `idx[k]` of the table, with its index |
| Summary.PositionLabel | app.py:70 | a code has a label iff it is 1-4 |
| Summary.Display | app.py:71-74 | each rendered record is the selected row plus the label of its position code |
| Summary.Summarize | app.py:59-78 | the page is rendered iff at least two rows are selected; otherwise the request fails with the out-of-bounds message |
| Summary.Respond | app.py:58-80 | a status other than Optimal shows "No feasible solution found…", and a rendered page implies Optimal |
| Summary.SelectionMatchesAssignment | app.py:59-60 | the selected team's rows, in table order, are exactly the rows the squad rules judge for that assignment |
| Summary.TotalCost | app.py:61 | definition: the cost column summed over the selected rows; `TotalsExact` ties it to the budget expression |
| Summary.TotalPoints | app.py:62 | definition: the projected points summed over the selected rows; `TotalsExact` ties it to the objective |
| Summary.TotalsExact | app.py:61-62 | the shown total cost is the budget expression's value at the assignment, and the shown total points is the objective's |
| Summary.TopTwo | app.py:65-67 | in a ranking of two or more distinct rows, the first two are different rows of the input, the first ranks at least as high as the second, and the second ranks at least as high as every other row |
| Summary.CaptainIsTopTwo | app.py:65-67 | captain and vice-captain are two different selected rows; the captain's projected points are at least the vice-captain's, which are at least those of every other selected row |
| Summary.PositionLabels | app.py:70-71 | labels are 1→GK, 2→DEF, 3→MID and 4→FWD, and every rendered record is a table row carrying its code's label |
| Handler.SolvedLineup | app.py:56-62 | under the solver contract, the page is rendered iff the status is Optimal; it then shows an accepted lineup of 11 rows with exact totals, cost within 8500, and points that no accepted lineup beats |
| Handler.RejectedNotOptimal | app.py:56-58 | under the solver contract, an assignment the squad rules reject is never an Optimal answer |
| Handler.ShortSupplyFails | app.py:42-80 | under the solver contract, a table lacking the supply for a squad rule never gets an Optimal answer, so the page shows the "no feasible solution" message |
| Handler.ShortlistLabelled | app.py:23-71 | every record of a page built from the shortlist has a position label |
| Handler.GenerateTeam | app.py:13-80 | the page is exactly `Respond` applied to the solver's answer for the shortlist's problem, so the summary lemmas apply to it. A non-Optimal status gives the "no feasible solution" page. An Optimal answer from a solver honouring its contract gives a rendered page with an accepted lineup of 11 rows, a total cost equal to the budget expression at the answer and within 8500, and total points equal to the objective at the answer and not beaten by any accepted lineup. Every rendered record has a position label. |

## Left out

- The web framework, routing and template rendering (lines 1-11, 73-78, 87-89) are left out. A page is modelled as the value `Response`.
- The HTTP fetch and JSON decoding (lines 16-22) are left out, and so is the error page for a failed fetch (lines 82-83). The feed is a parameter of `GenerateTeam`.
- The generic exception handler (lines 84-85) is modelled for one case only: fewer than two selected rows, where the vice-captain lookup fails.
- The CSV file written and read back (lines 33, 36) is left out. The round trip is taken to be the identity, and the re-read table's index is the row position.
- The solver (line 56) is left out. It is a function parameter. What the model needs from it is the assumed contract `Solver.Honours`.
  - The model proves nothing about a solver that breaks this contract.
  - Which optimal lineup the solver returns is not modelled.
  - Tolerances on `varValue` are not modelled. A value is 1 or it is not, and a variable without a value counts as not 1.
- Projected points (`ep_next`) are decimals in the feed. They are modelled as integers in a fixed unit, so floating-point rounding in the objective and the totals is not modelled.
- The sort at lines 26-29 runs on the frame decoded from the feed, before the CSV round trip turns `ep_next` into numbers. The model treats `ep_next` as a number there. If the feed delivers it as text, that sort orders strings ("10.5" below "9.0"), and the model does not capture this.
- Tie order is not modelled. Python's `sort_values` is called with its default algorithm, which is not stable. Which of two players with equal projected points is kept in a group, or is made captain, is therefore not fixed by the code.
  - The model sorts by insertion, which is one admissible order.
  - No property here depends on how ties are broken.
  - Stable tie-breaking would be a stronger promise than the code makes, so the model follows the code.
- Summary.Display: the `position` column added in place to the selected frame (line 71) is modelled as a new value per record, not as an update of the frame.
- Summary.CaptainIsTopTwo: the page shows the captains by `web_name`. Two different rows may share a web name; the lemma is stated about the rows.
