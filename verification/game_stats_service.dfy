/**
 * The write path and the read path of the statistics service: validate a
 * stat line, take the pair of locks, insert, re-read both aggregates, commit
 * them to the cache, and release the locks on every way out.
 */
module GameStats {
  import opened Wrappers
  import opened Codec
  import opened Keys
  import opened Cache
  import opened Repository

  const IdsMessage: string := "Ids must be bigger than 1."
  const NegativeMessage: string := "Stats cannot be negative."
  const FoulsMessage: string := "Fouls cannot be greater than 6."
  const MinutesMessage: string := "Minutes played must be between 0 and 48."

  predicate IdsPositive(s: StatLine) {
    s.playerId >= 1 && s.teamId >= 1 && s.gameId >= 1
  }

  predicate CountersNonNegative(s: StatLine) {
    s.points >= 0 && s.rebounds >= 0 && s.assists >= 0 && s.steals >= 0
    && s.blocks >= 0 && s.fouls >= 0 && s.turnovers >= 0
  }

  predicate FoulsWithinLimit(s: StatLine) {
    s.fouls <= 6
  }

  predicate MinutesWithinGame(s: StatLine) {
    0.0 <= s.minutesPlayed <= 48.0
  }

  /** The invariants of a stat line that the service accepts. */
  predicate WellFormed(s: StatLine) {
    IdsPositive(s) && CountersNonNegative(s) && FoulsWithinLimit(s) && MinutesWithinGame(s)
  }

  /**
   * `validateStats`: `None` when the line is accepted, otherwise the message
   * of the `IllegalArgumentException` for the first check that fails.
   */
  function ValidateStats(s: StatLine): (error: Option<string>)
    ensures error.None? <==> WellFormed(s)
    ensures !IdsPositive(s) ==> error == Some(IdsMessage)
    ensures IdsPositive(s) && !CountersNonNegative(s) ==> error == Some(NegativeMessage)
    ensures IdsPositive(s) && CountersNonNegative(s) && !FoulsWithinLimit(s) ==> error == Some(FoulsMessage)
    ensures IdsPositive(s) && CountersNonNegative(s) && FoulsWithinLimit(s) && !MinutesWithinGame(s) ==>
      error == Some(MinutesMessage)
  {
    if s.playerId < 1 || s.teamId < 1 || s.gameId < 1 then Some(IdsMessage)
    else if s.points < 0 || s.rebounds < 0 || s.assists < 0 || s.steals < 0 || s.blocks < 0
         || s.fouls < 0 || s.turnovers < 0 then Some(NegativeMessage)
    else if s.fouls > 6 then Some(FoulsMessage)
    else if s.minutesPlayed < 0.0 || s.minutesPlayed > 48.0 then Some(MinutesMessage)
    else None
  }

  /** Where a write that had taken its locks failed; every one surfaces as a `RuntimeException`. */
  datatype Stage = Persisting | Recomputing | CacheCommitting | LockReleasing

  /**
   * How a write ends: logged; rejected by validation (`IllegalArgumentException`);
   * failed after taking the locks; or still waiting in the lock loop after the
   * modelled attempts.
   */
  datatype WriteOutcome = Logged | Rejected(message: string) | Failed(stage: Stage) | Waiting

  /** What the outside world decides during one write. */
  datatype WriteEnv = WriteEnv(
    token: string,                          // the fresh random lock token
    releasedWhileWaiting: seq<set<string>>, // keys other clients delete during each back-off
    insert: InsertReply,                    // the database's answer to the INSERT
    playerQueryOk: bool,                    // the player aggregate query does not throw
    teamQueryOk: bool,                      // the team aggregate query does not throw
    cacheCommits: bool,                     // EXEC of the cache transaction succeeds
    release: Link)                          // the connection while releasing the locks

  /** The outcome of the lock loop of a write of `line`, and the store it leaves. */
  function Acquisition(m: Store, line: StatLine, env: WriteEnv): (bool, Store) {
    Spin(m, line.playerId, line.teamId, env.token, env.releasedWhileWaiting)
  }

  class GameStatsService {
    const repo: GameStatsRepository
    const cache: CacheService

    constructor (repo: GameStatsRepository, cache: CacheService)
      ensures this.repo == repo && this.cache == cache
    {
      this.repo := repo;
      this.cache := cache;
    }

    /**
     * `logGameStats`. The surrounding database transaction is rolled back
     * whenever the call ends in an exception, so only a logged write keeps
     * its row.
     */
    method LogGameStats(line: StatLine, env: WriteEnv) returns (r: WriteOutcome)
      modifies repo, cache
      // validation comes first, and a rejected line changes nothing
      ensures r.Rejected? <==> ValidateStats(line).Some?
      ensures r.Rejected? ==> r.message == ValidateStats(line).value
                              && cache.store == old(cache.store) && repo.rows == old(repo.rows)
      // the lock loop
      ensures r.Waiting? <==> ValidateStats(line).None? && !Acquisition(old(cache.store), line, env).0
      ensures r.Waiting? ==> cache.store == Acquisition(old(cache.store), line, env).1 && repo.rows == old(repo.rows)
      // once the locks are taken they are released on the normal and the exceptional exit
      ensures (r.Logged? || r.Failed?) && env.release.Serves(1) ==>
        PlayerLockKey(line.playerId) !in cache.store && TeamLockKey(line.teamId) !in cache.store
      // a failure up to the cache commit leaves the stats entries as the locks found them,
      // whether or not the release in `finally` then throws as well
      ensures r.Failed? && !(Inserts(env.insert) && env.playerQueryOk && env.teamQueryOk && env.cacheCommits) ==>
        cache.store == Released(Acquisition(old(cache.store), line, env).1, line.playerId, line.teamId, env.release)
      // a failed release after a committed cache: the row is rolled back, the cache keeps its aggregates
      ensures r.Failed? && Inserts(env.insert) && env.playerQueryOk && env.teamQueryOk && env.cacheCommits ==>
        && r == Failed(LockReleasing)
        && repo.rows == old(repo.rows)
        && cache.store == Released(Committed(Acquisition(old(cache.store), line, env).1, line.playerId, line.teamId,
                                             StatsByColumn(old(repo.rows) + [line], PlayerId, line.playerId, repo.averageOf),
                                             StatsByColumn(old(repo.rows) + [line], TeamId, line.teamId, repo.averageOf)),
                                   line.playerId, line.teamId, env.release)
      ensures r.Failed? && !Inserts(env.insert) ==> r == Failed(if env.release.Serves(1) then Persisting else LockReleasing)
      // success
      ensures r.Logged? <==> ValidateStats(line).None? && Acquisition(old(cache.store), line, env).0
                             && Inserts(env.insert) && env.playerQueryOk && env.teamQueryOk
                             && env.cacheCommits && env.release.Serves(1)
      ensures r.Logged? ==> repo.rows == old(repo.rows) + [line]
      ensures r.Logged? ==>
        cache.store == Released(Committed(Acquisition(old(cache.store), line, env).1, line.playerId, line.teamId,
                                          StatsByColumn(repo.rows, PlayerId, line.playerId, repo.averageOf),
                                          StatsByColumn(repo.rows, TeamId, line.teamId, repo.averageOf)),
                                line.playerId, line.teamId, env.release)
      ensures r.Logged? ==>
        && CachedValue(cache.store, PlayerStatsKey(line.playerId)) == StatsByColumn(repo.rows, PlayerId, line.playerId, repo.averageOf)
        && CachedValue(cache.store, TeamStatsKey(line.teamId)) == StatsByColumn(repo.rows, TeamId, line.teamId, repo.averageOf)
        && CachedValue(cache.store, PlayerStatsKey(line.playerId)).Some?
        && CachedValue(cache.store, TeamStatsKey(line.teamId)).Some?
      // rollback
      ensures !r.Logged? ==> repo.rows == old(repo.rows)
    {
      var invalid := ValidateStats(line);
      if invalid.Some? {
        return Rejected(invalid.value);
      }
      var playerId, teamId := line.playerId, line.teamId;
      var acquired := cache.AcquireLocks(playerId, teamId, env.token, env.releasedWhileWaiting);
      if !acquired {
        return Waiting;
      }
      ghost var held := cache.store;
      var rowsBefore := repo.rows;

      // try
      r := Logged;
      var inserted := repo.InsertGameStats(line, env.insert);
      if inserted.Err? {
        r := Failed(Persisting);
      } else {
        var playerStats := repo.GetPlayerStats(playerId, env.playerQueryOk);
        if playerStats.Err? {
          r := Failed(Recomputing);
        } else {
          var teamStats := repo.GetTeamStats(teamId, env.teamQueryOk);
          if teamStats.Err? {
            r := Failed(Recomputing);
          } else {
            var committed := cache.AtomicInvalidateAndUpdateCache(playerId, teamId, playerStats.value, teamStats.value, env.cacheCommits);
            if !committed {
              r := Failed(CacheCommitting);
            }
          }
        }
      }

      // finally
      var released := cache.ReleaseLocks(playerId, teamId, env.release);
      if !released {
        r := Failed(LockReleasing);
      }

      if !r.Logged? {
        repo.rows := rowsBefore;
      } else {
        StoredLineHasAggregates(repo.rows, line, repo.averageOf);
        KeysNamespaced(PlayerStats, playerId, PlayerLock, playerId);
        KeysNamespaced(PlayerStats, playerId, TeamLock, teamId);
        KeysNamespaced(TeamStats, teamId, PlayerLock, playerId);
        KeysNamespaced(TeamStats, teamId, TeamLock, teamId);
      }
    }

    /** The cached player row, or null; reads neither the repository nor changes the store. */
    method GetPlayerStats(playerId: int, reachable: bool) returns (stats: Option<Aggregate>)
      ensures stats == if reachable then CachedValue(cache.store, PlayerStatsKey(playerId)) else None
    {
      stats := cache.GetCachedPlayerStats(playerId, reachable);
    }

    /** The cached team row, or null; reads neither the repository nor changes the store. */
    method GetTeamStats(teamId: int, reachable: bool) returns (stats: Option<Aggregate>)
      ensures stats == if reachable then CachedValue(cache.store, TeamStatsKey(teamId)) else None
    {
      stats := cache.GetCachedTeamStats(teamId, reachable);
    }
  }

  /**
   * The valid line (player 1, team 2, game 3, 20 points, 5 rebounds, 3 assists,
   * 1 steal, 1 block, 2 fouls, 1 turnover, 35.5 minutes) is logged without an
   * exception on an empty cache and an empty table, after which player 1 has a
   * cached aggregate.
   */
  method ValidLineIsLogged(averageOf: seq<StatLine> -> Averages) returns (r: WriteOutcome, stats: Option<Aggregate>)
    ensures r == Logged
    ensures stats.Some? && stats.value.column == PlayerId && stats.value.subjectId == 1
  {
    var repo := new GameStatsRepository(averageOf);
    var cache := new CacheService(map[]);
    var service := new GameStatsService(repo, cache);
    var line := StatLine(1, 2, 3, 20, 5, 3, 1, 1, 2, 1, 35.5);
    r := service.LogGameStats(line, WriteEnv("token", [], RowsAffected(1), true, true, true, Up));
    stats := service.GetPlayerStats(1, true);
  }
}
