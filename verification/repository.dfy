/**
 * The authoritative store of stat lines, seen only through the two things
 * the services ask of it: insert one line, and read the average row of one
 * player or team. The averaging itself (SQL `AVG`) is the parameter
 * `averageOf`; what this model fixes is which rows are averaged and that no
 * matching row gives null.
 */
module Repository {
  import opened Wrappers
  import opened Codec

  /** One player's stat line for one game, as the write request carries it. */
  datatype StatLine = StatLine(
    playerId: int, teamId: int, gameId: int,
    points: int, rebounds: int, assists: int, steals: int, blocks: int, fouls: int, turnovers: int,
    minutesPlayed: real)

  /** What the database reports for an INSERT: a row count, or an access error. */
  datatype InsertReply = RowsAffected(count: nat) | DataAccessFailure

  /** The database reports at least one inserted row. */
  predicate Inserts(reply: InsertReply) {
    reply.RowsAffected? && reply.count > 0
  }

  const InsertFailedMessage: string := "Database insert failed"
  const QueryFailedMessage: string := "Database query failed"

  function SubjectOf(line: StatLine, column: Column): int {
    match column
    case PlayerId => line.playerId
    case TeamId => line.teamId
  }

  /** The rows of `WHERE column = id`, in stored order. */
  function Matching(rows: seq<StatLine>, column: Column, id: int): (r: seq<StatLine>)
    ensures |r| <= |rows|
    ensures forall line :: line in r ==> line in rows && SubjectOf(line, column) == id
    ensures forall line :: line in rows && SubjectOf(line, column) == id ==> line in r
    ensures forall line :: multiset(r)[line] == if SubjectOf(line, column) == id then multiset(rows)[line] else 0
  {
    if rows == [] then []
    else
      assert rows == [rows[0]] + rows[1..];
      var rest := Matching(rows[1..], column, id);
      if SubjectOf(rows[0], column) == id then [rows[0]] + rest else rest
  }

  /**
   * `getStatsByColumn`: the one aggregate row of the group `column = id`, or
   * null when the group is empty (the query returns no row).
   */
  function StatsByColumn(rows: seq<StatLine>, column: Column, id: int, averageOf: seq<StatLine> -> Averages): (r: Option<Aggregate>)
    ensures r.None? <==> forall line :: line in rows ==> SubjectOf(line, column) != id
    ensures r.Some? ==> r.value.column == column && r.value.subjectId == id
  {
    var group := Matching(rows, column, id);
    if group == [] then None
    else
      assert group[0] in group;
      Some(Aggregate(column, id, averageOf(group)))
  }

  /** A stored line always gives its player and its team a non-null aggregate. */
  lemma StoredLineHasAggregates(rows: seq<StatLine>, line: StatLine, averageOf: seq<StatLine> -> Averages)
    requires line in rows
    ensures StatsByColumn(rows, PlayerId, line.playerId, averageOf).Some?
    ensures StatsByColumn(rows, TeamId, line.teamId, averageOf).Some?
  {
  }

  class GameStatsRepository {
    var rows: seq<StatLine>
    const averageOf: seq<StatLine> -> Averages

    constructor (averageOf: seq<StatLine> -> Averages)
      ensures rows == [] && this.averageOf == averageOf
    {
      rows := [];
      this.averageOf := averageOf;
    }

    /** INSERT of one line; zero affected rows counts as a failure, as does an access error. */
    method InsertGameStats(line: StatLine, reply: InsertReply) returns (r: Result<()>)
      modifies this
      ensures r.Ok? <==> Inserts(reply)
      ensures r.Err? ==> r.message == InsertFailedMessage
      ensures rows == if r.Ok? then old(rows) + [line] else old(rows)
    {
      if reply.DataAccessFailure? || reply.count == 0 {
        return Err(InsertFailedMessage);
      }
      rows := rows + [line];
      return Ok(());
    }

    /** The player's aggregate row; `reachable` false stands for a query that throws. */
    method GetPlayerStats(playerId: int, reachable: bool) returns (r: Result<Option<Aggregate>>)
      ensures r == if reachable then Ok(StatsByColumn(rows, PlayerId, playerId, averageOf)) else Err(QueryFailedMessage)
    {
      if !reachable {
        return Err(QueryFailedMessage);
      }
      return Ok(StatsByColumn(rows, PlayerId, playerId, averageOf));
    }

    method GetTeamStats(teamId: int, reachable: bool) returns (r: Result<Option<Aggregate>>)
      ensures r == if reachable then Ok(StatsByColumn(rows, TeamId, teamId, averageOf)) else Err(QueryFailedMessage)
    {
      if !reachable {
        return Err(QueryFailedMessage);
      }
      return Ok(StatsByColumn(rows, TeamId, teamId, averageOf));
    }
  }
}
