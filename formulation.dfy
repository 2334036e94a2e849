/**
 * The integer program posed to the solver (app.py lines 37-54): one binary
 * variable per row of the candidate table, the objective "sum of projected
 * points of the chosen rows", and a list of linear constraints added one at
 * a time. A linear expression over the variables is its coefficient vector;
 * a 0/1 point is a `seq<bool>` with one entry per variable.
 */
module Formulation {
  import opened Tables
  import opened Players
  import opened Squad

  datatype Sense = Eq | Le | Ge

  /** `coeffs . x  sense  rhs`. */
  datatype Constraint = Constraint(coeffs: seq<int>, sense: Sense, rhs: int)

  /** The value of the linear expression `a` at the 0/1 point `x`. */
  function Dot(a: seq<int>, x: seq<bool>): int
    requires |a| == |x|
  {
    if a == [] then 0 else (if x[0] then a[0] else 0) + Dot(a[1..], x[1..])
  }

  predicate Holds(c: Constraint, x: seq<bool>)
  {
    |c.coeffs| == |x| &&
    match c.sense
    case Eq => Dot(c.coeffs, x) == c.rhs
    case Le => Dot(c.coeffs, x) <= c.rhs
    case Ge => Dot(c.coeffs, x) >= c.rhs
  }

  predicate Satisfied(cs: seq<Constraint>, x: seq<bool>)
  {
    forall k :: 0 <= k < |cs| ==> Holds(cs[k], x)
  }

  /** The sum of the variables of the rows `keep` accepts: coefficient 1 there, 0 elsewhere. */
  function Mask(pool: seq<Row>, keep: Row -> bool): (m: seq<int>)
    ensures |m| == |pool|
  {
    if pool == [] then [] else [if keep(pool[0]) then 1 else 0] + Mask(pool[1..], keep)
  }

  /** A column of the table used as coefficients, one per variable. */
  function Column(pool: seq<Row>, f: Row -> int): (m: seq<int>)
    ensures |m| == |pool|
  {
    if pool == [] then [] else [f(pool[0])] + Column(pool[1..], f)
  }

  /** A mask expression counts the chosen rows it covers. */
  lemma {:induction false} DotMask(pool: seq<Row>, x: seq<bool>, keep: Row -> bool)
    requires |x| == |pool|
    ensures Dot(Mask(pool, keep), x) == Count(Chosen(pool, x), keep)
  {
    if pool != [] {
      DotMask(pool[1..], x[1..], keep);
      FilterConcat(if x[0] then [pool[0]] else [], Chosen(pool[1..], x[1..]), keep);
    }
  }

  /** A column expression sums that column over the chosen rows. */
  lemma {:induction false} DotColumn(pool: seq<Row>, x: seq<bool>, f: Row -> int)
    requires |x| == |pool|
    ensures Dot(Column(pool, f), x) == Sum(Chosen(pool, x), f)
  {
    if pool != [] {
      DotColumn(pool[1..], x[1..], f);
      var rest := Chosen(pool[1..], x[1..]);
      if x[0] {
        assert ([pool[0]] + rest)[1..] == rest;
      } else {
        assert [] + rest == rest;
      }
    }
  }

  function Everyone(): Row -> bool
  {
    (r: Row) => true
  }

  /** The objective: projected points of the chosen rows (line 39). */
  function Objective(pool: seq<Row>, x: seq<bool>): int
    requires |x| == |pool|
  {
    Dot(Column(pool, Points), x)
  }

  /** The squad size, position and budget constraints, in the order they are added (lines 42-50). */
  function FixedConstraints(pool: seq<Row>): (cs: seq<Constraint>)
    ensures |cs| == 9
    ensures forall k :: 0 <= k < |cs| ==> |cs[k].coeffs| == |pool|
  {
    [ Constraint(Mask(pool, Everyone()), Eq, SQUAD_SIZE),
      Constraint(Mask(pool, RowOfType(GK)), Eq, 1),
      Constraint(Mask(pool, RowOfType(DEF)), Ge, 3),
      Constraint(Mask(pool, RowOfType(DEF)), Le, 5),
      Constraint(Mask(pool, RowOfType(MID)), Ge, 2),
      Constraint(Mask(pool, RowOfType(MID)), Le, 5),
      Constraint(Mask(pool, RowOfType(FWD)), Ge, 1),
      Constraint(Mask(pool, RowOfType(FWD)), Le, 3),
      Constraint(Column(pool, Cost), Le, BUDGET) ]
  }

  /** At most three chosen rows from `team` (line 54). */
  function TeamCap(pool: seq<Row>, team: int): Constraint
  {
    Constraint(Mask(pool, OnTeam(team)), Le, MAX_PER_TEAM)
  }

  function TeamCaps(pool: seq<Row>, teams: seq<int>): (cs: seq<Constraint>)
    ensures |cs| == |teams|
  {
    seq(|teams|, k requires 0 <= k < |teams| => TeamCap(pool, teams[k]))
  }

  /** The distinct values of `s`, in order of first occurrence. */
  function Unique(s: seq<int>): (r: seq<int>)
    ensures forall v :: v in r <==> v in s
    ensures forall i, j :: 0 <= i < j < |r| ==> r[i] != r[j]
  {
    if s == [] then []
    else
      var init, last := s[..|s| - 1], s[|s| - 1];
      assert s == init + [last];
      var u := Unique(init);
      if last in u then u else u + [last]
  }

  /** The distinct team identifiers of the table (`df['team'].unique()`, line 53). */
  function UniqueTeams(pool: seq<Row>): (teams: seq<int>)
    ensures forall v :: v in teams <==> exists i :: 0 <= i < |pool| && pool[i].team == v
    ensures forall i, j :: 0 <= i < j < |teams| ==> teams[i] != teams[j]
  {
    var column := seq(|pool|, i requires 0 <= i < |pool| => pool[i].team);
    assert forall v :: v in column <==> exists i :: 0 <= i < |pool| && pool[i].team == v by {
      forall v | v in column
        ensures exists i :: 0 <= i < |pool| && pool[i].team == v
      {
        var i :| 0 <= i < |column| && column[i] == v;
      }
      forall v | exists i :: 0 <= i < |pool| && pool[i].team == v
        ensures v in column
      {
        var i :| 0 <= i < |pool| && pool[i].team == v;
        assert column[i] == v;
      }
    }
    Unique(column)
  }

  lemma TeamCapsGrow(pool: seq<Row>, teams: seq<int>, k: nat)
    requires k < |teams|
    ensures TeamCaps(pool, teams[..k + 1]) == TeamCaps(pool, teams[..k]) + [TeamCap(pool, teams[k])]
  {
  }

  /** The whole constraint list, as lines 42-54 build it. */
  function ProblemConstraints(pool: seq<Row>): (cs: seq<Constraint>)
    ensures |cs| == 9 + |UniqueTeams(pool)|
    ensures forall k :: 0 <= k < |cs| ==> |cs[k].coeffs| == |pool|
  {
    FixedConstraints(pool) + TeamCaps(pool, UniqueTeams(pool))
  }

  lemma SatisfiedConcat(a: seq<Constraint>, b: seq<Constraint>, x: seq<bool>)
    ensures Satisfied(a + b, x) <==> Satisfied(a, x) && Satisfied(b, x)
  {
    if Satisfied(a, x) && Satisfied(b, x) {
      forall k | 0 <= k < |a + b|
        ensures Holds((a + b)[k], x)
      {
        if k >= |a| {
          assert (a + b)[k] == b[k - |a|];
        }
      }
    }
    if Satisfied(a + b, x) {
      forall k | 0 <= k < |a|
        ensures Holds(a[k], x)
      {
        assert (a + b)[k] == a[k];
      }
      forall k | 0 <= k < |b|
        ensures Holds(b[k], x)
      {
        assert (a + b)[|a| + k] == b[k];
      }
    }
  }

  /** The nine fixed constraints say exactly what the size, position and budget rules say. */
  lemma FixedExact(pool: seq<Row>, x: seq<bool>)
    requires |x| == |pool|
    ensures Satisfied(FixedConstraints(pool), x) <==>
      var team := Chosen(pool, x);
      && |team| == SQUAD_SIZE
      && Count(team, RowOfType(GK)) == 1
      && 3 <= Count(team, RowOfType(DEF)) <= 5
      && 2 <= Count(team, RowOfType(MID)) <= 5
      && 1 <= Count(team, RowOfType(FWD)) <= 3
      && Sum(team, Cost) <= BUDGET
  {
    var team := Chosen(pool, x);
    var cs := FixedConstraints(pool);
    assert Holds(cs[0], x) <==> |team| == SQUAD_SIZE by {
      DotMask(pool, x, Everyone());
      FilterKeepsAll(team, Everyone());
    }
    assert Holds(cs[1], x) <==> Count(team, RowOfType(GK)) == 1 by {
      DotMask(pool, x, RowOfType(GK));
    }
    assert Holds(cs[2], x) && Holds(cs[3], x) <==> 3 <= Count(team, RowOfType(DEF)) <= 5 by {
      DotMask(pool, x, RowOfType(DEF));
    }
    assert Holds(cs[4], x) && Holds(cs[5], x) <==> 2 <= Count(team, RowOfType(MID)) <= 5 by {
      DotMask(pool, x, RowOfType(MID));
    }
    assert Holds(cs[6], x) && Holds(cs[7], x) <==> 1 <= Count(team, RowOfType(FWD)) <= 3 by {
      DotMask(pool, x, RowOfType(FWD));
    }
    assert Holds(cs[8], x) <==> Sum(team, Cost) <= BUDGET by {
      DotColumn(pool, x, Cost);
    }
    if Holds(cs[0], x) && Holds(cs[1], x) && Holds(cs[2], x) && Holds(cs[3], x) && Holds(cs[4], x) &&
       Holds(cs[5], x) && Holds(cs[6], x) && Holds(cs[7], x) && Holds(cs[8], x) {
      forall k | 0 <= k < |cs|
        ensures Holds(cs[k], x)
      {
        assert k in {0, 1, 2, 3, 4, 5, 6, 7, 8};
      }
    }
  }

  /** The per-team constraints, one per distinct team of the table, say exactly what the team-cap rule says. */
  lemma TeamCapsExact(pool: seq<Row>, x: seq<bool>)
    requires |x| == |pool|
    ensures Satisfied(TeamCaps(pool, UniqueTeams(pool)), x) <==> WithinTeamCap(Chosen(pool, x))
  {
    var team := Chosen(pool, x);
    var teams := UniqueTeams(pool);
    var caps := TeamCaps(pool, teams);
    if Satisfied(caps, x) {
      forall i | 0 <= i < |team|
        ensures Count(team, OnTeam(team[i].team)) <= MAX_PER_TEAM
      {
        assert team[i] in pool;
        var j :| 0 <= j < |pool| && pool[j] == team[i];
        assert team[i].team in teams;
        var k :| 0 <= k < |teams| && teams[k] == team[i].team;
        assert Holds(caps[k], x);
        DotMask(pool, x, OnTeam(teams[k]));
      }
    }
    if WithinTeamCap(team) {
      forall k | 0 <= k < |caps|
        ensures Holds(caps[k], x)
      {
        CapCoversEveryTeam(team, teams[k]);
        DotMask(pool, x, OnTeam(teams[k]));
      }
    }
  }

  /**
   * The constraint list accepts a 0/1 point exactly when the squad rules
   * do. Team caps are only posed for teams present in the table; that
   * loses nothing, because every chosen row's team is one of them.
   */
  lemma FormulationExact(pool: seq<Row>, x: seq<bool>)
    ensures Satisfied(ProblemConstraints(pool), x) <==> ValidLineup(pool, x)
  {
    var fixed, caps := FixedConstraints(pool), TeamCaps(pool, UniqueTeams(pool));
    SatisfiedConcat(fixed, caps, x);
    if |x| == |pool| {
      FixedExact(pool, x);
      TeamCapsExact(pool, x);
    } else {
      assert !Holds(fixed[0], x);
    }
  }

  /** The problem object that the constraints are added to. */
  class LpProblem {
    const numVars: nat
    var objective: seq<int>
    var constraints: seq<Constraint>

    /** A fresh maximisation problem over `n` binary variables, with no objective and no constraints. */
    constructor (n: nat)
      ensures numVars == n
      ensures objective == seq(n, _ => 0)
      ensures constraints == []
    {
      numVars := n;
      objective := seq(n, _ => 0);
      constraints := [];
    }

    /** `prob += expression`: sets the objective. */
    method SetObjective(coeffs: seq<int>)
      modifies this
      ensures objective == coeffs
      ensures constraints == old(constraints)
    {
      objective := coeffs;
    }

    /** `prob += constraint`: appends a constraint. */
    method AddConstraint(c: Constraint)
      modifies this
      ensures constraints == old(constraints) + [c]
      ensures objective == old(objective)
    {
      constraints := constraints + [c];
    }

    /** The 0/1 points the problem admits. */
    predicate Admits(x: seq<bool>)
      reads this
    {
      |x| == numVars && Satisfied(constraints, x)
    }
  }

  /** Adds the nine squad-rule constraints of lines 42-50 to `prob`, in source order. */
  method AddSquadRules(prob: LpProblem, pool: seq<Row>)
    modifies prob
    ensures prob.constraints == old(prob.constraints) + FixedConstraints(pool)
    ensures prob.objective == old(prob.objective)
  {
    ghost var before := prob.constraints;
    prob.AddConstraint(Constraint(Mask(pool, Everyone()), Eq, SQUAD_SIZE));
    prob.AddConstraint(Constraint(Mask(pool, RowOfType(GK)), Eq, 1));
    prob.AddConstraint(Constraint(Mask(pool, RowOfType(DEF)), Ge, 3));
    prob.AddConstraint(Constraint(Mask(pool, RowOfType(DEF)), Le, 5));
    prob.AddConstraint(Constraint(Mask(pool, RowOfType(MID)), Ge, 2));
    prob.AddConstraint(Constraint(Mask(pool, RowOfType(MID)), Le, 5));
    prob.AddConstraint(Constraint(Mask(pool, RowOfType(FWD)), Ge, 1));
    prob.AddConstraint(Constraint(Mask(pool, RowOfType(FWD)), Le, 3));
    prob.AddConstraint(Constraint(Column(pool, Cost), Le, BUDGET));
    assert prob.constraints[..|before|] == before;
    assert prob.constraints[|before|..] == FixedConstraints(pool);
    assert prob.constraints == prob.constraints[..|before|] + prob.constraints[|before|..];
  }

  /**
   * Builds the problem of lines 37-54: the objective, the nine fixed
   * constraints, then one team cap per distinct team.
   */
  method Formulate(pool: seq<Row>) returns (prob: LpProblem)
    ensures fresh(prob)
    ensures prob.numVars == |pool|
    ensures prob.objective == Column(pool, Points)
    ensures prob.constraints == ProblemConstraints(pool)
    ensures forall x :: prob.Admits(x) <==> ValidLineup(pool, x)
  {
    prob := new LpProblem(|pool|);
    prob.SetObjective(Column(pool, Points));
    AddSquadRules(prob, pool);
    ghost var fixed := FixedConstraints(pool);
    var teams := UniqueTeams(pool);
    var k := 0;
    assert TeamCaps(pool, teams[..k]) == [];
    while k < |teams|
      invariant 0 <= k <= |teams|
      invariant prob.objective == Column(pool, Points)
      invariant prob.constraints == fixed + TeamCaps(pool, teams[..k])
    {
      prob.AddConstraint(TeamCap(pool, teams[k]));
      TeamCapsGrow(pool, teams, k);
      k := k + 1;
    }
    assert teams[..k] == teams;
    forall x
      ensures prob.Admits(x) <==> ValidLineup(pool, x)
    {
      FormulationExact(pool, x);
    }
  }
}
