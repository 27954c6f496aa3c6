/**
 * The asynchronous refresher: for each notification it re-reads the player
 * and team aggregates and overwrites their cache entries, without taking any
 * lock, and swallows every failure.
 */
module Consumer {
  import opened Wrappers
  import opened Codec
  import opened Keys
  import opened Cache
  import opened Repository

  /** What the outside world decides while one notification is processed. */
  datatype ConsumeEnv = ConsumeEnv(
    playerQueryOk: bool,     // the player aggregate query does not throw
    teamQueryOk: bool,       // the team aggregate query does not throw
    playerWriteOk: bool,     // the store accepts the player entry
    teamWriteOk: bool)       // the store accepts the team entry

  /** The store after one `consume` of `message`. */
  function AfterConsume(m: Store, rows: seq<StatLine>, averageOf: seq<StatLine> -> Averages, message: string, env: ConsumeEnv): (r: Store)
    ensures DecodeMessage(message).None? ==> r == m
    ensures !env.playerQueryOk || !env.teamQueryOk ==> r == m
    ensures DecodeMessage(message).Some? ==>
      var note := DecodeMessage(message).value;
      forall key :: key != PlayerStatsKey(note.playerId) && key != TeamStatsKey(note.teamId) ==>
        (key in r <==> key in m) && (key in r ==> r[key] == m[key])
  {
    match DecodeMessage(message)
    case None => m
    case Some(note) =>
      if !env.playerQueryOk || !env.teamQueryOk then m
      else
        var playerStats := StatsByColumn(rows, PlayerId, note.playerId, averageOf);
        var teamStats := StatsByColumn(rows, TeamId, note.teamId, averageOf);
        var m1 := if env.playerWriteOk then m[PlayerStatsKey(note.playerId) := Serialize(playerStats)] else m;
        if env.teamWriteOk then m1[TeamStatsKey(note.teamId) := Serialize(teamStats)] else m1
  }

  /**
   * After a fully successful `consume`, both entries named by the message hold
   * the aggregates of the current rows.
   */
  lemma ConsumeWritesCurrentAggregates(m: Store, rows: seq<StatLine>, averageOf: seq<StatLine> -> Averages, message: string, env: ConsumeEnv)
    requires DecodeMessage(message).Some?
    requires env == ConsumeEnv(true, true, true, true)
    ensures var note, r := DecodeMessage(message).value, AfterConsume(m, rows, averageOf, message, env);
      && CachedValue(r, PlayerStatsKey(note.playerId)) == StatsByColumn(rows, PlayerId, note.playerId, averageOf)
      && CachedValue(r, TeamStatsKey(note.teamId)) == StatsByColumn(rows, TeamId, note.teamId, averageOf)
  {
    var note := DecodeMessage(message).value;
    assert AfterConsume(m, rows, averageOf, message, env)
        == Committed(m, note.playerId, note.teamId,
                     StatsByColumn(rows, PlayerId, note.playerId, averageOf),
                     StatsByColumn(rows, TeamId, note.teamId, averageOf));
  }

  /** `consume` leaves every lock entry, of any player or team, as it was. */
  lemma ConsumeKeepsLocks(m: Store, rows: seq<StatLine>, averageOf: seq<StatLine> -> Averages, message: string, env: ConsumeEnv, lockKind: KeyKind, id: int)
    requires lockKind == PlayerLock || lockKind == TeamLock
    ensures var r, key := AfterConsume(m, rows, averageOf, message, env), Key(lockKind, id);
      (key in r <==> key in m) && (key in r ==> r[key] == m[key])
  {
    if DecodeMessage(message).Some? {
      var note := DecodeMessage(message).value;
      KeysNamespaced(lockKind, id, PlayerStats, note.playerId);
      KeysNamespaced(lockKind, id, TeamStats, note.teamId);
    }
  }

  /**
   * Redelivery is harmless: with the rows unchanged, consuming a message a
   * second time leaves the store the first consumption left.
   */
  lemma ConsumeIdempotent(m: Store, rows: seq<StatLine>, averageOf: seq<StatLine> -> Averages, message: string, env: ConsumeEnv)
    ensures var once := AfterConsume(m, rows, averageOf, message, env);
      AfterConsume(once, rows, averageOf, message, env) == once
  {
  }

  class KafkaConsumerService {
    const repo: GameStatsRepository
    const cache: CacheService

    constructor (repo: GameStatsRepository, cache: CacheService)
      ensures this.repo == repo && this.cache == cache
    {
      this.repo := repo;
      this.cache := cache;
    }

    /**
     * `consume`: decode the notification, read both aggregates, overwrite
     * both entries. Nothing propagates out: an unreadable message or a failed
     * query ends the call with the store unchanged, and each entry's write
     * swallows its own failure.
     */
    method Consume(message: string, env: ConsumeEnv)
      modifies cache
      ensures cache.store == AfterConsume(old(cache.store), repo.rows, repo.averageOf, message, env)
    {
      var decoded := DecodeMessage(message);
      if decoded.None? {
        return;
      }
      var note := decoded.value;
      var playerStats := repo.GetPlayerStats(note.playerId, env.playerQueryOk);
      if playerStats.Err? {
        return;
      }
      var teamStats := repo.GetTeamStats(note.teamId, env.teamQueryOk);
      if teamStats.Err? {
        return;
      }
      cache.UpdatePlayerCache(note.playerId, playerStats.value, env.playerWriteOk);
      cache.UpdateTeamCache(note.teamId, teamStats.value, env.teamWriteOk);
    }
  }
}
