/**
 * The squad rules the optimiser is asked to respect (app.py lines 42-54),
 * stated directly on the rows a 0/1 assignment chooses: eleven players,
 * one goalkeeper, three to five defenders, two to five midfielders, one to
 * three forwards, a total cost of at most 8500 and at most three players
 * from any one team. `ValidLineup` is the reference definition the
 * constraint list of module Formulation is proved equivalent to.
 */
module Squad {
  import opened Tables
  import opened Players

  const SQUAD_SIZE: nat := 11
  const BUDGET: int := 8500
  const MAX_PER_TEAM: nat := 3

  /** Position codes and the bounds on how many of each the lineup holds. */
  const GK: int := 1
  const DEF: int := 2
  const MID: int := 3
  const FWD: int := 4

  /** The condition `element_type == t` on table rows (module Filtering has its counterpart on feed players). */
  function RowOfType(t: int): Row -> bool
  {
    (r: Row) => r.elementType == t
  }

  function OnTeam(team: int): Row -> bool
  {
    (r: Row) => r.team == team
  }

  /** The cost column of a table row. */
  function Cost(r: Row): int
  {
    r.nowCost
  }

  /** The projected-points column of a table row, used as the objective's coefficients. */
  function Points(r: Row): int
  {
    r.epNext
  }

  /** The rows whose decision variable is 1, in table order. */
  function Chosen(pool: seq<Row>, x: seq<bool>): (team: seq<Row>)
    requires |x| == |pool|
    ensures |team| <= |pool|
    ensures forall r :: r in team ==> r in pool
  {
    if pool == [] then []
    else (if x[0] then [pool[0]] else []) + Chosen(pool[1..], x[1..])
  }

  /** The number of rows of `rows` that `keep` accepts. */
  function Count(rows: seq<Row>, keep: Row -> bool): nat
  {
    |Filter(rows, keep)|
  }

  /** An assignment the squad rules accept. */
  predicate ValidLineup(pool: seq<Row>, x: seq<bool>)
  {
    |x| == |pool| &&
    var team := Chosen(pool, x);
    && |team| == SQUAD_SIZE
    && Count(team, RowOfType(GK)) == 1
    && 3 <= Count(team, RowOfType(DEF)) <= 5
    && 2 <= Count(team, RowOfType(MID)) <= 5
    && 1 <= Count(team, RowOfType(FWD)) <= 3
    && Sum(team, Cost) <= BUDGET
    && WithinTeamCap(team)
  }

  /** No chosen row has more than three chosen rows (itself included) on its team. */
  predicate WithinTeamCap(team: seq<Row>)
  {
    forall i :: 0 <= i < |team| ==> Count(team, OnTeam(team[i].team)) <= MAX_PER_TEAM
  }

  /** The per-row team cap bounds every team value, present in `team` or not. */
  lemma CapCoversEveryTeam(team: seq<Row>, v: int)
    requires WithinTeamCap(team)
    ensures Count(team, OnTeam(v)) <= MAX_PER_TEAM
  {
    var mates := Filter(team, OnTeam(v));
    if mates != [] {
      assert mates[0] in team;
      var i :| 0 <= i < |team| && team[i] == mates[0];
      assert team[i].team == v;
    }
  }

  /**
   * In an accepted lineup no team value at all, whether or not it occurs in
   * the table, has more than three chosen players.
   */
  lemma NoTeamOverCap(pool: seq<Row>, x: seq<bool>, team: int)
    requires ValidLineup(pool, x)
    ensures Count(Chosen(pool, x), OnTeam(team)) <= MAX_PER_TEAM
  {
    CapCoversEveryTeam(Chosen(pool, x), team);
  }

  /** A chosen row of a kind is a row of the table of that kind: chosen counts never exceed the supply. */
  lemma {:induction false} ChosenWithinSupply(pool: seq<Row>, x: seq<bool>, keep: Row -> bool)
    requires |x| == |pool|
    ensures Count(Chosen(pool, x), keep) <= Count(pool, keep)
  {
    if pool != [] {
      ChosenWithinSupply(pool[1..], x[1..], keep);
      FilterConcat(if x[0] then [pool[0]] else [], Chosen(pool[1..], x[1..]), keep);
      FilterConcat([pool[0]], pool[1..], keep);
      assert [pool[0]] + pool[1..] == pool;
    }
  }

  /** The table lacks the rows some squad rule needs. */
  predicate ShortSupply(pool: seq<Row>)
  {
    |pool| < SQUAD_SIZE || Count(pool, RowOfType(GK)) < 1 || Count(pool, RowOfType(DEF)) < 3
    || Count(pool, RowOfType(MID)) < 2 || Count(pool, RowOfType(FWD)) < 1
  }

  /**
   * A table that lacks the supply for some rule has no accepted lineup: fewer
   * than eleven rows, no goalkeeper, or fewer than three defenders, two
   * midfielders or one forward.
   */
  lemma NoLineupWithoutSupply(pool: seq<Row>, x: seq<bool>)
    requires ShortSupply(pool)
    ensures !ValidLineup(pool, x)
  {
    if |x| == |pool| {
      ChosenWithinSupply(pool, x, RowOfType(GK));
      ChosenWithinSupply(pool, x, RowOfType(DEF));
      ChosenWithinSupply(pool, x, RowOfType(MID));
      ChosenWithinSupply(pool, x, RowOfType(FWD));
    }
  }
}
