/**
 * Player records. `Player` is one element of the statistics feed, reduced to
 * the fields the lineup code reads; `Row` is one row of the candidate table,
 * i.e. the nine columns the shortlist keeps (the availability status is not
 * among them).
 *
 * `nowCost` is in the feed's minor currency units; `epNext`, the projected
 * points for the next round, is a decimal in the feed and is kept here as an
 * integer in a fixed unit (tenths of a point, say).
 */
module Players {

  datatype Player = Player(
    firstName: string,
    secondName: string,
    webName: string,
    team: int,
    nowCost: int,
    epNext: int,
    elementType: int,
    totalPoints: int,
    eventPoints: int,
    status: string)

  datatype Row = Row(
    firstName: string,
    secondName: string,
    webName: string,
    team: int,
    nowCost: int,
    epNext: int,
    elementType: int,
    totalPoints: int,
    eventPoints: int)

  /** The column selection that turns a player into a candidate-table row. */
  function Project(p: Player): Row
  {
    Row(p.firstName, p.secondName, p.webName, p.team, p.nowCost, p.epNext,
        p.elementType, p.totalPoints, p.eventPoints)
  }

  /**
   * The projected points of a feed player: the shortlist's sort key. Modules
   * Squad and Summary read the same column from a table row (`Points`) and
   * from a selected entry (`EntryPoints`); each is a named function so that
   * it can be passed as a column.
   */
  function EpNext(p: Player): int
  {
    p.epNext
  }
}
