/**
 * The candidate shortlist built at the start of the request (app.py lines
 * 23-36): keep the players whose status is available ('a') or doubtful
 * ('d'); for each position code 1 (GK), 2 (DEF), 3 (MID) and 4 (FWD) sort
 * them by projected points, highest first, and keep the first 20; stack the
 * four groups in that order and keep the nine table columns. The table is
 * written to a CSV file and read straight back; that round trip is taken to
 * be the identity, so `Shortlist` is the table the optimiser works on.
 */
module Filtering {
  import opened Tables
  import opened Players

  const SHORTLIST_SIZE: nat := 20

  predicate IsAvailable(p: Player)
  {
    p.status == "a" || p.status == "d"
  }

  /** The condition `element_type == t` on feed players (module Squad has its counterpart on table rows). */
  function PlayerOfType(t: int): Player -> bool
  {
    (p: Player) => p.elementType == t
  }

  /** The available players of position `t`, in feed order. */
  function Pool(players: seq<Player>, t: int): (r: seq<Player>)
    ensures forall p :: p in r <==> p in players && IsAvailable(p) && p.elementType == t
  {
    Filter(Filter(players, IsAvailable), PlayerOfType(t))
  }

  /** The best `SHORTLIST_SIZE` available players of position `t`. */
  function Group(players: seq<Player>, t: int): (g: seq<Player>)
    ensures |g| <= SHORTLIST_SIZE
    ensures SortedDesc(g, EpNext)
    ensures multiset(g) <= multiset(Pool(players, t))
    ensures forall p :: p in g ==> p in players && IsAvailable(p) && p.elementType == t
  {
    var s := SortDesc(Pool(players, t), EpNext);
    TakeIsPrefix(s, EpNext, SHORTLIST_SIZE);
    var g := Take(s, SHORTLIST_SIZE);
    assert forall p :: p in g ==> p in multiset(s);
    g
  }

  /** The four position groups stacked as GK, DEF, MID, FWD. */
  function Candidates(players: seq<Player>): seq<Player>
  {
    Group(players, 1) + Group(players, 2) + Group(players, 3) + Group(players, 4)
  }

  /** The candidate table: the stacked groups with the nine kept columns. */
  function Shortlist(players: seq<Player>): (rows: seq<Row>)
    ensures |rows| == |Candidates(players)|
    ensures forall i :: 0 <= i < |rows| ==> rows[i] == Project(Candidates(players)[i])
  {
    var c := Candidates(players);
    seq(|c|, i requires 0 <= i < |c| => Project(c[i]))
  }

  /** Position codes never decrease along `s`, and projected points never increase within one code. */
  predicate GroupedByPosition(s: seq<Player>)
  {
    forall i, j :: 0 <= i < j < |s| ==>
      s[i].elementType < s[j].elementType ||
      (s[i].elementType == s[j].elementType && s[i].epNext >= s[j].epNext)
  }

  lemma GroupedAppend(a: seq<Player>, g: seq<Player>, t: int)
    requires GroupedByPosition(a)
    requires forall p :: p in a ==> p.elementType < t
    requires forall p :: p in g ==> p.elementType == t
    requires SortedDesc(g, EpNext)
    ensures GroupedByPosition(a + g)
  {
    var s := a + g;
    forall i, j | 0 <= i < j < |s|
      ensures s[i].elementType < s[j].elementType ||
              (s[i].elementType == s[j].elementType && s[i].epNext >= s[j].epNext)
    {
      if j < |a| {
        assert s[i] == a[i] && s[j] == a[j];
      } else if i < |a| {
        assert s[i] == a[i] && s[j] == g[j - |a|];
      } else {
        assert s[i] == g[i - |a|] && s[j] == g[j - |a|];
      }
    }
  }

  /** Every shortlisted player is available or doubtful and has a position code from 1 to 4. */
  lemma CandidatesEligible(players: seq<Player>)
    ensures forall p :: p in Candidates(players) ==>
      p in players && IsAvailable(p) && 1 <= p.elementType <= 4
  {
  }

  /**
   * The shortlist holds at most 20 rows per position and 80 in all; its
   * groups come in the order GK, DEF, MID, FWD, and within a group the
   * projected points never increase.
   */
  lemma ShortlistShape(players: seq<Player>)
    ensures |Shortlist(players)| <= 4 * SHORTLIST_SIZE
    ensures forall i :: 0 <= i < |Shortlist(players)| ==> 1 <= Shortlist(players)[i].elementType <= 4
    ensures forall i, j :: 0 <= i < j < |Shortlist(players)| ==>
      var rows := Shortlist(players);
      rows[i].elementType < rows[j].elementType ||
      (rows[i].elementType == rows[j].elementType && rows[i].epNext >= rows[j].epNext)
  {
    var c := Candidates(players);
    CandidatesGrouped(players);
    forall i | 0 <= i < |c|
      ensures 1 <= c[i].elementType <= 4
    {
      assert c[i] in c;
    }
  }

  lemma CandidatesGrouped(players: seq<Player>)
    ensures GroupedByPosition(Candidates(players))
  {
    var g1, g2, g3, g4 := Group(players, 1), Group(players, 2), Group(players, 3), Group(players, 4);
    GroupedAppend([], g1, 1);
    assert [] + g1 == g1;
    GroupedAppend(g1, g2, 2);
    GroupedAppend(g1 + g2, g3, 3);
    GroupedAppend(g1 + g2 + g3, g4, 4);
  }

  /**
   * The rows of position `t` in the shortlist are exactly that position's
   * group, in order; a code outside 1..4 has no rows.
   */
  lemma PositionRows(players: seq<Player>, t: int)
    ensures Filter(Candidates(players), PlayerOfType(t)) ==
      if 1 <= t <= 4 then Group(players, t) else []
    ensures |Filter(Candidates(players), PlayerOfType(t))| <= SHORTLIST_SIZE
  {
    StackFilter(Group(players, 1), Group(players, 2), Group(players, 3), Group(players, 4), t);
  }

  lemma StackFilter(g1: seq<Player>, g2: seq<Player>, g3: seq<Player>, g4: seq<Player>, t: int)
    requires forall p :: p in g1 ==> p.elementType == 1
    requires forall p :: p in g2 ==> p.elementType == 2
    requires forall p :: p in g3 ==> p.elementType == 3
    requires forall p :: p in g4 ==> p.elementType == 4
    ensures Filter(g1 + g2 + g3 + g4, PlayerOfType(t)) ==
      if t == 1 then g1 else if t == 2 then g2 else if t == 3 then g3 else if t == 4 then g4 else []
  {
    var keep := PlayerOfType(t);
    var f1, f2, f3, f4 := Filter(g1, keep), Filter(g2, keep), Filter(g3, keep), Filter(g4, keep);
    assert Filter(g1 + g2 + g3 + g4, keep) == f1 + f2 + f3 + f4 by {
      FilterConcat(g1 + g2 + g3, g4, keep);
      FilterConcat(g1 + g2, g3, keep);
      FilterConcat(g1, g2, keep);
    }
    assert f1 == (if t == 1 then g1 else []) by { OnePosition(g1, 1, t); }
    assert f2 == (if t == 2 then g2 else []) by { OnePosition(g2, 2, t); }
    assert f3 == (if t == 3 then g3 else []) by { OnePosition(g3, 3, t); }
    assert f4 == (if t == 4 then g4 else []) by { OnePosition(g4, 4, t); }
  }

  lemma OnePosition(g: seq<Player>, u: int, t: int)
    requires forall p :: p in g ==> p.elementType == u
    ensures Filter(g, PlayerOfType(t)) == if u == t then g else []
  {
    if u == t {
      FilterKeepsAll(g, PlayerOfType(t));
    } else {
      FilterKeepsNone(g, PlayerOfType(t));
    }
  }

  /**
   * Top-k: an available player of position `t` left out of the shortlist
   * has projected points no higher than any shortlisted player of `t`.
   */
  lemma LeftOutRanksLower(players: seq<Player>, t: int, x: Player, y: Player)
    requires x in multiset(Pool(players, t)) - multiset(Group(players, t))
    requires y in Group(players, t)
    ensures x.epNext <= y.epNext
  {
    var s := SortDesc(Pool(players, t), EpNext);
    TakeKeepsBest(s, EpNext, SHORTLIST_SIZE, x, y);
  }

  /**
   * A position group holds exactly 20 players when the position has more
   * than 20 available, and all of them otherwise.
   */
  lemma GroupSize(players: seq<Player>, t: int)
    ensures |Group(players, t)| ==
      if |Pool(players, t)| <= SHORTLIST_SIZE then |Pool(players, t)| else SHORTLIST_SIZE
  {
    var s := SortDesc(Pool(players, t), EpNext);
    assert |s| == |multiset(s)| == |Pool(players, t)|;
  }

  /** A position with at most 20 available players keeps all of them. */
  lemma SmallPoolKept(players: seq<Player>, t: int)
    requires |Pool(players, t)| <= SHORTLIST_SIZE
    ensures multiset(Group(players, t)) == multiset(Pool(players, t))
  {
    var s := SortDesc(Pool(players, t), EpNext);
    assert |s| == |multiset(s)| == |multiset(Pool(players, t))|;
  }
}
