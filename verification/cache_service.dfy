/**
 * The cache service: lock entries and cached aggregate rows kept side by side
 * in one shared key-value store (Redis), which the service updates in place.
 */
module Cache {
  import opened Wrappers
  import opened Codec
  import opened Keys

  type Store = map<string, string>

  /**
   * The connection to the store during one call: `Up`, or lost from the
   * `command`-th store command of the call on (counting from 0), each command
   * from then on throwing.
   */
  datatype Link = Up | DropsAt(command: nat) {
    predicate Serves(i: nat) {
      Up? || i < command
    }
  }

  /** What `getCachedStats` makes of the entry under `key`: null on a miss or an unreadable text. */
  function CachedValue(m: Store, key: string): (r: Option<Aggregate>)
    ensures key !in m ==> r.None?
    ensures r.Some? ==> key in m && Deserialize(m[key]) == Some(r)
    ensures key in m && Deserialize(m[key]).Some? ==> r == Deserialize(m[key]).value
  {
    if key in m then
      match Deserialize(m[key])
      case Some(value) => value
      case None => None
    else None
  }

  /** Writing a row under a key and reading that key gives the row back (null for null). */
  lemma UpdateThenRead(m: Store, key: string, stats: Option<Aggregate>)
    ensures CachedValue(m[key := Serialize(stats)], key) == stats
  {
    SerializeRoundTrip(stats);
  }

  /**
   * One evaluation of the guard of the lock loop: set-if-absent on the player
   * lock and, only when that succeeded, set-if-absent on the team lock.
   */
  function TryLocks(m: Store, playerId: int, teamId: int, token: string): (r: (bool, Store))
    ensures r.0 <==> PlayerLockKey(playerId) !in m && TeamLockKey(teamId) !in m
    ensures r.0 ==> r.1 == m[PlayerLockKey(playerId) := token][TeamLockKey(teamId) := token]
    ensures PlayerLockKey(playerId) in m ==> r.1 == m
    ensures !r.0 && PlayerLockKey(playerId) !in m ==> r.1 == m[PlayerLockKey(playerId) := token]
  {
    var playerLock, teamLock := PlayerLockKey(playerId), TeamLockKey(teamId);
    KeysNamespaced(PlayerLock, playerId, TeamLock, teamId);
    if playerLock in m then (false, m)
    else
      var m1 := m[playerLock := token];
      if teamLock in m1 then (false, m1) else (true, m1[teamLock := token])
  }

  /**
   * The lock loop: attempts until one succeeds. Between two attempts, while
   * this caller backs off, other clients delete the keys of `releases[i]`; the
   * result after the last modelled attempt is `(false, _)` when none succeeded.
   * A loop that has not succeeded leaves the player lock key present: either
   * another client's lock, or the caller's own from a partial attempt.
   */
  function Spin(m: Store, playerId: int, teamId: int, token: string, releases: seq<set<string>>): (r: (bool, Store))
    ensures !r.0 ==> PlayerLockKey(playerId) in r.1
    decreases |releases|
  {
    var attempt := TryLocks(m, playerId, teamId, token);
    if attempt.0 || releases == [] then attempt
    else Spin(attempt.1 - releases[0], playerId, teamId, token, releases[1..])
  }

  /** On exit from the lock loop both lock keys hold the caller's token. */
  lemma {:induction false} SpinHoldsBoth(m: Store, playerId: int, teamId: int, token: string, releases: seq<set<string>>)
    ensures var r := Spin(m, playerId, teamId, token, releases);
      r.0 ==> (PlayerLockKey(playerId) in r.1 && r.1[PlayerLockKey(playerId)] == token
               && TeamLockKey(teamId) in r.1 && r.1[TeamLockKey(teamId)] == token)
    decreases |releases|
  {
    var attempt := TryLocks(m, playerId, teamId, token);
    if !attempt.0 && releases != [] {
      SpinHoldsBoth(attempt.1 - releases[0], playerId, teamId, token, releases[1..]);
    }
  }

  predicate Untouched(releases: seq<set<string>>, key: string) {
    forall i :: 0 <= i < |releases| ==> key !in releases[i]
  }

  /** The lock loop writes only the two lock keys; other keys change only by other clients' deletes. */
  lemma {:induction false} SpinFrame(m: Store, playerId: int, teamId: int, token: string, releases: seq<set<string>>, key: string)
    requires key != PlayerLockKey(playerId) && key != TeamLockKey(teamId) && Untouched(releases, key)
    ensures var r := Spin(m, playerId, teamId, token, releases).1;
      (key in r <==> key in m) && (key in m ==> r[key] == m[key])
    decreases |releases|
  {
    var attempt := TryLocks(m, playerId, teamId, token);
    if !attempt.0 && releases != [] {
      assert Untouched(releases[1..], key) by {
        forall i | 0 <= i < |releases| - 1 ensures key !in releases[1..][i] {
          assert releases[1..][i] == releases[i + 1];
        }
      }
      SpinFrame(attempt.1 - releases[0], playerId, teamId, token, releases[1..], key);
    }
  }

  /**
   * While the caller's own player lock is in the store, no attempt succeeds:
   * every retry starts with set-if-absent on that key.
   */
  lemma {:induction false} HeldPlayerLockBlocks(m: Store, playerId: int, teamId: int, token: string, releases: seq<set<string>>)
    requires PlayerLockKey(playerId) in m && m[PlayerLockKey(playerId)] == token
    requires Untouched(releases, PlayerLockKey(playerId))
    ensures var r := Spin(m, playerId, teamId, token, releases);
      !r.0 && PlayerLockKey(playerId) in r.1 && r.1[PlayerLockKey(playerId)] == token
    decreases |releases|
  {
    if releases != [] {
      assert Untouched(releases[1..], PlayerLockKey(playerId)) by {
        forall i | 0 <= i < |releases| - 1 ensures PlayerLockKey(playerId) !in releases[1..][i] {
          assert releases[1..][i] == releases[i + 1];
        }
      }
      HeldPlayerLockBlocks(m - releases[0], playerId, teamId, token, releases[1..]);
    }
  }

  /**
   * A first attempt that takes the player lock while the team lock is taken
   * leaves the caller holding its player lock, and then the loop never
   * finishes, even after the team lock is released, unless some other client
   * deletes the caller's player lock.
   */
  lemma PartialHoldNeverCompletes(m: Store, playerId: int, teamId: int, token: string, releases: seq<set<string>>)
    requires PlayerLockKey(playerId) !in m && TeamLockKey(teamId) in m
    requires Untouched(releases, PlayerLockKey(playerId))
    ensures !Spin(m, playerId, teamId, token, releases).0
  {
    var attempt := TryLocks(m, playerId, teamId, token);
    if releases != [] {
      var next := attempt.1 - releases[0];
      assert 0 < |releases| && PlayerLockKey(playerId) !in releases[0];
      assert PlayerLockKey(playerId) in next && next[PlayerLockKey(playerId)] == token;
      assert Untouched(releases[1..], PlayerLockKey(playerId)) by {
        forall i | 0 <= i < |releases| - 1 ensures PlayerLockKey(playerId) !in releases[1..][i] {
          assert releases[1..][i] == releases[i + 1];
        }
      }
      HeldPlayerLockBlocks(next, playerId, teamId, token, releases[1..]);
    }
  }

  /** The store after `releaseLocks`: unconditional deletes of both lock keys, in order, until the link drops. */
  function Released(m: Store, playerId: int, teamId: int, link: Link): (r: Store)
    ensures link.Serves(1) ==> PlayerLockKey(playerId) !in r && TeamLockKey(teamId) !in r
    ensures forall key :: key != PlayerLockKey(playerId) && key != TeamLockKey(teamId) ==>
      (key in r <==> key in m) && (key in r ==> r[key] == m[key])
  {
    var m1 := if link.Serves(0) then m - {PlayerLockKey(playerId)} else m;
    if link.Serves(0) && link.Serves(1) then m1 - {TeamLockKey(teamId)} else m1
  }

  /** The store after a committed cache transaction: both stats keys overwritten, nothing else changed. */
  function Committed(m: Store, playerId: int, teamId: int, playerStats: Option<Aggregate>, teamStats: Option<Aggregate>): (r: Store)
    ensures CachedValue(r, PlayerStatsKey(playerId)) == playerStats
    ensures CachedValue(r, TeamStatsKey(teamId)) == teamStats
    ensures forall key :: key != PlayerStatsKey(playerId) && key != TeamStatsKey(teamId) ==>
      (key in r <==> key in m) && (key in r ==> r[key] == m[key])
  {
    KeysNamespaced(PlayerStats, playerId, TeamStats, teamId);
    UpdateThenRead(m[PlayerStatsKey(playerId) := Serialize(playerStats)], TeamStatsKey(teamId), teamStats);
    SerializeRoundTrip(playerStats);
    m[PlayerStatsKey(playerId) := Serialize(playerStats)][TeamStatsKey(teamId) := Serialize(teamStats)]
  }

  /** A cache commit leaves every lock entry as it was. */
  lemma CommitKeepsLocks(m: Store, playerId: int, teamId: int, playerStats: Option<Aggregate>, teamStats: Option<Aggregate>, lockKind: KeyKind, id: int)
    requires lockKind == PlayerLock || lockKind == TeamLock
    ensures var r := Committed(m, playerId, teamId, playerStats, teamStats);
      (Key(lockKind, id) in r <==> Key(lockKind, id) in m) && (Key(lockKind, id) in r ==> r[Key(lockKind, id)] == m[Key(lockKind, id)])
  {
    KeysNamespaced(lockKind, id, PlayerStats, playerId);
    KeysNamespaced(lockKind, id, TeamStats, teamId);
  }

  /** Deleting keys and then writing them leaves the same store as writing them. */
  lemma DeleteThenWrite(m: Store, a: string, b: string, x: string, y: string)
    ensures (m - {a} - {b})[a := x][b := y] == m[a := x][b := y]
  {
  }

  class CacheService {
    /** The shared key-value store. */
    var store: Store

    constructor (initial: Store)
      ensures store == initial
    {
      store := initial;
    }

    /** Set-if-absent of a lock key with the caller's token. */
    method AcquireLock(lockKey: string, lockValue: string) returns (acquired: bool)
      modifies this
      ensures acquired <==> lockKey !in old(store)
      ensures store == if acquired then old(store)[lockKey := lockValue] else old(store)
    {
      acquired := lockKey !in store;
      if acquired {
        store := store[lockKey := lockValue];
      }
    }

    /** Unconditional delete of a lock key, whoever holds it; throws when the store is unreachable. */
    method ReleaseLock(lockKey: string, reachable: bool) returns (ok: bool)
      modifies this
      ensures ok == reachable
      ensures store == if reachable then old(store) - {lockKey} else old(store)
    {
      ok := reachable;
      if reachable {
        store := store - {lockKey};
      }
    }

    /** One evaluation of `!acquireLock(player) || !acquireLock(team)`, negated. */
    method TryAcquireLocks(playerId: int, teamId: int, token: string) returns (acquired: bool)
      modifies this
      ensures (acquired, store) == TryLocks(old(store), playerId, teamId, token)
    {
      acquired := AcquireLock(PlayerLockKey(playerId), token);
      if acquired {
        acquired := AcquireLock(TeamLockKey(teamId), token);
      }
    }

    /**
     * Takes both locks with one fresh token, retrying the pair from the player
     * lock on every failure. `releasedWhileWaiting[i]` is what other clients
     * delete during the i-th back-off; `acquired` is false when the modelled
     * attempts run out and the loop would still be spinning.
     */
    method AcquireLocks(playerId: int, teamId: int, token: string, releasedWhileWaiting: seq<set<string>>) returns (acquired: bool)
      modifies this
      ensures (acquired, store) == Spin(old(store), playerId, teamId, token, releasedWhileWaiting)
      ensures acquired ==> (PlayerLockKey(playerId) in store && store[PlayerLockKey(playerId)] == token
                            && TeamLockKey(teamId) in store && store[TeamLockKey(teamId)] == token)
    {
      ghost var goal := Spin(store, playerId, teamId, token, releasedWhileWaiting);
      acquired := TryAcquireLocks(playerId, teamId, token);
      var i := 0;
      while !acquired && i < |releasedWhileWaiting|
        invariant 0 <= i <= |releasedWhileWaiting|
        invariant goal == if acquired || i == |releasedWhileWaiting| then (acquired, store)
                          else Spin(store - releasedWhileWaiting[i], playerId, teamId, token, releasedWhileWaiting[i + 1..])
        decreases |releasedWhileWaiting| - i
      {
        // back-off: other clients release keys meanwhile
        store := store - releasedWhileWaiting[i];
        i := i + 1;
        acquired := TryAcquireLocks(playerId, teamId, token);
      }
      SpinHoldsBoth(old(store), playerId, teamId, token, releasedWhileWaiting);
    }

    /** Deletes the player lock, then the team lock; an unreachable store throws out of the call. */
    method ReleaseLocks(playerId: int, teamId: int, link: Link) returns (ok: bool)
      modifies this
      ensures ok == link.Serves(1)
      ensures store == Released(old(store), playerId, teamId, link)
    {
      ok := ReleaseLock(PlayerLockKey(playerId), link.Serves(0));
      if ok {
        ok := ReleaseLock(TeamLockKey(teamId), link.Serves(1));
      }
    }

    /** Deletes both stats keys; a failure stops the deletes and is swallowed. */
    method InvalidateCache(playerId: int, teamId: int, link: Link)
      modifies this
      ensures link.Serves(0) ==> PlayerStatsKey(playerId) !in store
      ensures link.Serves(1) ==> TeamStatsKey(teamId) !in store
      ensures store == old(store) - (if link.Serves(0) then {PlayerStatsKey(playerId)} else {})
                                  - (if link.Serves(1) then {TeamStatsKey(teamId)} else {})
    {
      if link.Serves(0) {
        store := store - {PlayerStatsKey(playerId)};
        if link.Serves(1) {
          store := store - {TeamStatsKey(teamId)};
        }
      }
    }

    /** Writes the serialised row under `cacheKey`; a failure of the write is swallowed. */
    method UpdateCache(cacheKey: string, stats: Option<Aggregate>, reachable: bool)
      modifies this
      ensures store == if reachable then old(store)[cacheKey := Serialize(stats)] else old(store)
      ensures reachable ==> CachedValue(store, cacheKey) == stats
    {
      if reachable {
        store := store[cacheKey := Serialize(stats)];
        UpdateThenRead(old(store), cacheKey, stats);
      }
    }

    method UpdatePlayerCache(playerId: int, stats: Option<Aggregate>, reachable: bool)
      modifies this
      ensures store == if reachable then old(store)[PlayerStatsKey(playerId) := Serialize(stats)] else old(store)
      ensures reachable ==> CachedValue(store, PlayerStatsKey(playerId)) == stats
    {
      UpdateCache(PlayerStatsKey(playerId), stats, reachable);
    }

    method UpdateTeamCache(teamId: int, stats: Option<Aggregate>, reachable: bool)
      modifies this
      ensures store == if reachable then old(store)[TeamStatsKey(teamId) := Serialize(stats)] else old(store)
      ensures reachable ==> CachedValue(store, TeamStatsKey(teamId)) == stats
    {
      UpdateCache(TeamStatsKey(teamId), stats, reachable);
    }

    /**
     * Invalidate and rewrite both stats entries in one MULTI/EXEC transaction.
     * The queued commands take effect together at EXEC or not at all; a failed
     * EXEC is reported as a failure of the call.
     */
    method AtomicInvalidateAndUpdateCache(playerId: int, teamId: int, playerStats: Option<Aggregate>, teamStats: Option<Aggregate>, committed: bool)
      returns (ok: bool)
      modifies this
      ensures ok == committed
      ensures store == if committed then Committed(old(store), playerId, teamId, playerStats, teamStats) else old(store)
    {
      var before := store;
      InvalidateCache(playerId, teamId, Up);
      UpdatePlayerCache(playerId, playerStats, true);
      UpdateTeamCache(teamId, teamStats, true);
      DeleteThenWrite(before, PlayerStatsKey(playerId), TeamStatsKey(teamId), Serialize(playerStats), Serialize(teamStats));
      ok := committed;
      if !committed {
        // EXEC failed: none of the queued commands is applied
        store := before;
      }
    }

    /** The cached row under `cacheKey`, or null on a miss, an unreadable text or an unreachable store. */
    method GetCachedStats(cacheKey: string, reachable: bool) returns (stats: Option<Aggregate>)
      ensures cacheKey !in store ==> stats == None
      ensures stats == if reachable then CachedValue(store, cacheKey) else None
    {
      if reachable && cacheKey in store {
        var text := Deserialize(store[cacheKey]);
        if text.Some? {
          return text.value;
        }
      }
      return None;
    }

    method GetCachedPlayerStats(playerId: int, reachable: bool) returns (stats: Option<Aggregate>)
      ensures stats == if reachable then CachedValue(store, PlayerStatsKey(playerId)) else None
    {
      stats := GetCachedStats(PlayerStatsKey(playerId), reachable);
    }

    method GetCachedTeamStats(teamId: int, reachable: bool) returns (stats: Option<Aggregate>)
      ensures stats == if reachable then CachedValue(store, TeamStatsKey(teamId)) else None
    {
      stats := GetCachedStats(TeamStatsKey(teamId), reachable);
    }
  }
}
