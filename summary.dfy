/**
 * What the request does with the solver's answer (app.py lines 58-80): on an
 * Optimal status, the rows whose variable is 1 become the selected team; the
 * page shows their total cost and total projected points, the two rows with
 * the highest projected points as captain and vice-captain, and each row
 * with a position label. Any other status shows the "no feasible solution"
 * message.
 */
module Summary {
  import opened Tables
  import opened Players
  import opened Squad
  import opened Formulation
  import opened Solver

  datatype Option<T> = None | Some(value: T)

  /** A variable reads as 1 when the solver gave it a value and that value is 1. */
  predicate VarIsOne(values: seq<bool>, i: nat)
  {
    i < |values| && values[i]
  }

  predicate Increasing(s: seq<nat>)
  {
    forall k, l :: 0 <= k < l < |s| ==> s[k] < s[l]
  }

  lemma IncreasingCons(i: nat, s: seq<nat>)
    requires Increasing(s)
    requires forall k :: 0 <= k < |s| ==> i < s[k]
    ensures Increasing([i] + s)
  {
    var r := [i] + s;
    forall k, l | 0 <= k < l < |r|
      ensures r[k] < r[l]
    {
      assert r[l] == s[l - 1];
      if k > 0 {
        assert r[k] == s[k - 1];
      }
    }
  }

  /** The indices `i` in `lo..n` whose variable is 1, in increasing order. */
  function IndicesFrom(values: seq<bool>, lo: nat, n: nat): (r: seq<nat>)
    decreases n - lo
    ensures forall k :: 0 <= k < |r| ==> lo <= r[k] < n && VarIsOne(values, r[k])
    ensures forall i :: lo <= i < n && VarIsOne(values, i) ==> i in r
    ensures Increasing(r)
  {
    if n <= lo then []
    else
      var rest := IndicesFrom(values, lo + 1, n);
      if VarIsOne(values, lo) then
        IncreasingCons(lo, rest);
        [lo] + rest
      else
        rest
  }

  /** The selected indices: every row index whose variable is 1, in table order. */
  function SelectedIndices(values: seq<bool>, n: nat): (r: seq<nat>)
    ensures forall k :: 0 <= k < |r| ==> r[k] < n
    ensures forall i: nat :: i in r <==> i < n && VarIsOne(values, i)
    ensures Increasing(r)
  {
    IndicesFrom(values, 0, n)
  }

  /** A row of the selected team together with its index in the candidate table. */
  datatype Entry = Entry(index: nat, row: Row)

  /** The projected points of a selected entry: the captain ranking key. */
  function EntryPoints(e: Entry): int
  {
    e.row.epNext
  }

  /** The rows at the given indices, each with its index. */
  function SelectedTeam(pool: seq<Row>, idx: seq<nat>): (team: seq<Entry>)
    requires forall k :: 0 <= k < |idx| ==> idx[k] < |pool|
    ensures |team| == |idx|
    ensures forall k :: 0 <= k < |team| ==> team[k] == Entry(idx[k], pool[idx[k]])
  {
    seq(|idx|, k requires 0 <= k < |idx| => Entry(idx[k], pool[idx[k]]))
  }

  function Rows(team: seq<Entry>): (rows: seq<Row>)
    ensures |rows| == |team|
    ensures forall k :: 0 <= k < |team| ==> rows[k] == team[k].row
  {
    seq(|team|, k requires 0 <= k < |team| => team[k].row)
  }

  function TotalCost(team: seq<Entry>): int
  {
    Sum(Rows(team), Cost)
  }

  function TotalPoints(team: seq<Entry>): int
  {
    Sum(Rows(team), Points)
  }

  /** The position label of a position code; codes outside 1..4 have none. */
  function PositionLabel(t: int): (name: Option<string>)
    ensures name.Some? <==> GK <= t <= FWD
  {
    if t == GK then Some("GK")
    else if t == DEF then Some("DEF")
    else if t == MID then Some("MID")
    else if t == FWD then Some("FWD")
    else None
  }

  /** One record of the rendered team: the row's columns plus its position label. */
  datatype Member = Member(row: Row, position: Option<string>)

  function Display(team: seq<Entry>): (members: seq<Member>)
    ensures |members| == |team|
    ensures forall k :: 0 <= k < |team| ==>
      members[k] == Member(team[k].row, PositionLabel(team[k].row.elementType))
  {
    seq(|team|, k requires 0 <= k < |team| => Member(team[k].row, PositionLabel(team[k].row.elementType)))
  }

  /** What the page shows for a solved problem; the captains are shown by their web names. */
  datatype TeamSheet = TeamSheet(
    team: seq<Member>,
    totalCost: int,
    totalPoints: int,
    captain: Entry,
    viceCaptain: Entry)

  datatype Response = Rendered(sheet: TeamSheet) | Failed(message: string)

  const NO_FEASIBLE: string := "No feasible solution found. Consider relaxing constraints."

  /**
   * With fewer than two selected rows the vice-captain lookup fails, and the
   * request's catch-all handler turns the indexing error into this message.
   */
  const NO_VICE_CAPTAIN: string := "An error occurred: single positional indexer is out-of-bounds"

  /** The summary of an assignment of the `pool` variables. */
  function Summarize(pool: seq<Row>, values: seq<bool>): (resp: Response)
    ensures resp.Rendered? <==> |SelectedIndices(values, |pool|)| >= 2
    ensures resp.Failed? ==> resp.message == NO_VICE_CAPTAIN
  {
    var team := SelectedTeam(pool, SelectedIndices(values, |pool|));
    var ranked := SortDesc(team, EntryPoints);
    assert |ranked| == |multiset(team)| == |team|;
    if |ranked| < 2 then Failed(NO_VICE_CAPTAIN)
    else Rendered(TeamSheet(Display(team), TotalCost(team), TotalPoints(team), ranked[0], ranked[1]))
  }

  /** The page for the solver's answer `sol`: any status other than Optimal shows the "no feasible solution" message. */
  function Respond(pool: seq<Row>, sol: Solution): (resp: Response)
    ensures sol.status != Optimal ==> resp == Failed(NO_FEASIBLE)
    ensures resp.Rendered? ==> sol.status == Optimal
  {
    if sol.status == Optimal then Summarize(pool, sol.values) else Failed(NO_FEASIBLE)
  }

  /**
   * The selected rows, in table order, are exactly the rows whose variable is
   * 1, i.e. the rows `Chosen` picks for the squad rules.
   */
  lemma SelectionMatchesAssignment(pool: seq<Row>, x: seq<bool>)
    requires |x| == |pool|
    ensures Rows(SelectedTeam(pool, SelectedIndices(x, |pool|))) == Chosen(pool, x)
  {
    SelectionFrom(pool, x, 0);
    assert pool[0..] == pool && x[0..] == x;
  }

  lemma {:induction false} SelectionFrom(pool: seq<Row>, x: seq<bool>, lo: nat)
    requires |x| == |pool| && lo <= |pool|
    ensures Rows(SelectedTeam(pool, IndicesFrom(x, lo, |pool|))) == Chosen(pool[lo..], x[lo..])
    decreases |pool| - lo
  {
    if lo < |pool| {
      SelectionFrom(pool, x, lo + 1);
      ChosenStep(pool, x, lo);
      if x[lo] {
        SelectedRowsCons(pool, lo, IndicesFrom(x, lo + 1, |pool|));
      }
    }
  }

  lemma ChosenStep(pool: seq<Row>, x: seq<bool>, lo: nat)
    requires |x| == |pool| && lo < |pool|
    ensures Chosen(pool[lo..], x[lo..]) ==
      (if x[lo] then [pool[lo]] else []) + Chosen(pool[lo + 1..], x[lo + 1..])
  {
    assert pool[lo..][1..] == pool[lo + 1..] && x[lo..][1..] == x[lo + 1..];
  }

  lemma SelectedRowsCons(pool: seq<Row>, i: nat, rest: seq<nat>)
    requires i < |pool|
    requires forall k :: 0 <= k < |rest| ==> rest[k] < |pool|
    ensures Rows(SelectedTeam(pool, [i] + rest)) == [pool[i]] + Rows(SelectedTeam(pool, rest))
  {
  }

  /**
   * The totals are exact: the total cost and total projected points are the
   * sums of the cost and points columns over the rows whose variable is 1,
   * i.e. the budget row's and the objective's value at the assignment.
   */
  lemma TotalsExact(pool: seq<Row>, x: seq<bool>)
    requires |x| == |pool|
    ensures var team := SelectedTeam(pool, SelectedIndices(x, |pool|));
      TotalCost(team) == Dot(Column(pool, Cost), x) &&
      TotalPoints(team) == Objective(pool, x)
  {
    SelectionMatchesAssignment(pool, x);
    DotColumn(pool, x, Cost);
    DotColumn(pool, x, Points);
  }

  /** A sequence without repeated elements holds each value at most once. */
  lemma {:induction false} DistinctOnce<T>(s: seq<T>, v: T)
    requires forall k, l :: 0 <= k < l < |s| ==> s[k] != s[l]
    ensures multiset(s)[v] <= 1
  {
    if s != [] {
      DistinctOnce(s[1..], v);
      assert s == [s[0]] + s[1..];
      if s[0] == v {
        assert v !in s[1..];
      }
    }
  }

  /**
   * In a ranking of two or more distinct elements, the first two are
   * different elements of the input, the first ranks at least as high as the
   * second, and the second at least as high as every other element.
   */
  lemma TopTwo<T>(s: seq<T>, key: T -> int)
    requires |s| >= 2
    requires forall k, l :: 0 <= k < l < |s| ==> s[k] != s[l]
    ensures var ranked := SortDesc(s, key);
      && |ranked| == |s|
      && ranked[0] in s && ranked[1] in s
      && ranked[0] != ranked[1]
      && key(ranked[0]) >= key(ranked[1])
      && forall e :: e in s && e != ranked[0] ==> key(e) <= key(ranked[1])
  {
    var ranked := SortDesc(s, key);
    assert |ranked| == |multiset(ranked)| == |s|;
    DistinctOnce(s, ranked[0]);
    assert ranked == [ranked[0], ranked[1]] + ranked[2..];
    assert multiset(ranked)[ranked[0]] >= 1 + (if ranked[1] == ranked[0] then 1 else 0);
    assert ranked[0] in multiset(s) && ranked[1] in multiset(s);
    forall e | e in s && e != ranked[0]
      ensures key(e) <= key(ranked[1])
    {
      assert e in multiset(ranked);
      var p :| 0 <= p < |ranked| && ranked[p] == e;
      assert p != 0;
    }
  }

  /**
   * Captain and vice-captain: two different selected rows, the captain's
   * projected points at least the vice-captain's, and the vice-captain's at
   * least those of every other selected row.
   */
  lemma CaptainIsTopTwo(pool: seq<Row>, values: seq<bool>)
    requires Summarize(pool, values).Rendered?
    ensures var team := SelectedTeam(pool, SelectedIndices(values, |pool|));
      var sheet := Summarize(pool, values).sheet;
      && sheet.captain in team && sheet.viceCaptain in team
      && sheet.captain != sheet.viceCaptain
      && EntryPoints(sheet.captain) >= EntryPoints(sheet.viceCaptain)
      && forall e :: e in team && e != sheet.captain ==> EntryPoints(e) <= EntryPoints(sheet.viceCaptain)
  {
    var idx := SelectedIndices(values, |pool|);
    SelectedTeamDistinct(pool, idx);
    TopTwo(SelectedTeam(pool, idx), EntryPoints);
  }

  /** Entries taken at increasing indices are pairwise different. */
  lemma SelectedTeamDistinct(pool: seq<Row>, idx: seq<nat>)
    requires forall k :: 0 <= k < |idx| ==> idx[k] < |pool|
    requires Increasing(idx)
    ensures forall k, l :: 0 <= k < l < |idx| ==> SelectedTeam(pool, idx)[k] != SelectedTeam(pool, idx)[l]
  {
    var team := SelectedTeam(pool, idx);
    forall k, l | 0 <= k < l < |team|
      ensures team[k] != team[l]
    {
      assert team[k].index == idx[k] < idx[l] == team[l].index;
    }
  }

  /** The labels: 1 is GK, 2 is DEF, 3 is MID, 4 is FWD, and each rendered row carries the label of its code. */
  lemma PositionLabels(pool: seq<Row>, values: seq<bool>)
    ensures PositionLabel(GK) == Some("GK") && PositionLabel(DEF) == Some("DEF")
    ensures PositionLabel(MID) == Some("MID") && PositionLabel(FWD) == Some("FWD")
    ensures Summarize(pool, values).Rendered? ==>
      forall m :: m in Summarize(pool, values).sheet.team ==>
        m.row in pool && m.position == PositionLabel(m.row.elementType)
  {
    var team := SelectedTeam(pool, SelectedIndices(values, |pool|));
    if Summarize(pool, values).Rendered? {
      var members := Summarize(pool, values).sheet.team;
      forall m | m in members
        ensures m.row in pool && m.position == PositionLabel(m.row.elementType)
      {
        var k :| 0 <= k < |members| && members[k] == m;
        assert m.row == team[k].row;
      }
    }
  }
}
