# NBA game statistics: the write path, its locks and its cache

This project models the core of a service that records per-game player
statistics in a relational table and keeps the running averages of each
player and team in a shared key-value cache (Redis). Two writers touch the cache:

- **The write path.** `GameStatsService.logGameStats` validates a stat line. It takes a lock
  for the player and one for the team, then inserts the line. It then re-reads both aggregate
  rows and commits them to the cache in one MULTI/EXEC transaction. It releases both locks in a
  `finally` block.
- **The asynchronous refresher.** `KafkaConsumerService.consume` re-reads both aggregates for
  a notification and overwrites the two cache entries. It takes no lock and swallows every failure.

Locks and cached rows live side by side in the same store. A lock is a key
`player:lock:<id>` or `team:lock:<id>` holding a random token. A cached row is the serialised
aggregate under `player:stats:<id>` or `team:stats:<id>`.

## How the model is built

- **Store.** `Cache.CacheService` holds the store as a `map<string, string>` field. Every
  operation of the service is a method that updates that map in place.
- **Pure specifications.** Whole-loop and whole-call effects are stated as pure functions
  (`TryLocks`, `Spin`, `Released`, `Committed`, `AfterConsume`, `CachedValue`). The lemmas
  are about those functions.
- **Repository.** `Repository.GameStatsRepository` holds the inserted rows. The averaging
  engine (SQL `AVG`) is the parameter `averageOf`. Which rows are averaged, and that an empty
  group gives null, are fixed by `StatsByColumn`.
- **Serialisation.** The JSON serialiser is replaced by a concrete encoding: every field is a
  decimal integer followed by `;`. A null row is the text `null`. The round trip
  (`SerializeRoundTrip`) is proved, not assumed.
- **Key names.** Keys are a prefix followed by Java's decimal text of the id.
  `KeysNamespaced` proves that two keys are equal exactly when their kind and id are equal.
- **Outside world.** The environment's choices are parameters:
  - the random lock token;
  - the keys other clients delete while this caller backs off in the lock loop;
  - the database's reply to the INSERT;
  - whether each aggregate query throws;
  - whether EXEC succeeds;
  - whether the store stays reachable during a call (`Link`, or `reachable` for one command).
- **Rollback.** `logGameStats` is `@Transactional`
  (src/main/java/com/nba/stats/service/GameStatsService.java:18). So any exception that leaves
  it rolls back the inserted row. The model restores the rows on every outcome other than `Logged`.

### Known weaknesses of the code

The model follows the code at each of these points:

- Releasing a lock deletes the key without checking the token it holds. In this program every
  release follows the caller's own successful acquisition of the same keys, so it deletes the
  caller's own locks; only a delete or eviction from outside the program, or another caller of
  the public `releaseLocks`, could let it remove another holder's lock. No lock has a lease, so a
  lock whose holder dies stays forever.
- The lock loop has no deadline; it retries every 100 ms for as long as a lock is taken.
- A failed cache transaction fails the whole write with a `RuntimeException`, even though the
  row was already inserted. That exception also rolls the row back.
- A release that throws after a successful cache transaction fails the write and rolls the row
  back, while the cache keeps the aggregates that included it.
- The refresher overwrites entries with plain writes, not with the transaction.

### What the proofs show about the lock loop

Each retry starts again with set-if-absent on the player lock. Suppose a first attempt gets the
player lock but finds the team lock taken. The caller then holds its own player lock, and no later
attempt can succeed, even after the team lock is freed (`PartialHoldNeverCompletes`). No path
of the program frees that key: only `releaseLocks` for the same player deletes it, and every
caller reaches `releaseLocks` only after its own `acquireLocks` has set that same key, which
cannot happen while the key is present. So the caller, and every later write for that player,
spins until something outside the program deletes the key.

## Model

| member | source | states |
|---|---|---|
| `Keys.Prefix` | src/main/java/com/nba/stats/service/CacheService.java:22-25 | each of the four prefixes ends in ':' and holds no digit or minus sign |
| `Keys.Key` | src/main/java/com/nba/stats/service/CacheService.java:28-29 | a key starts with its kind's prefix and the rest reads back as the id |
| `Digits.IntToString` | src/main/java/com/nba/stats/service/CacheService.java:28-29 | Java's decimal text of an id: nonempty, digits after an optional minus sign, which appears iff the id is negative |
| `Keys.KeysNamespaced` | src/main/java/com/nba/stats/service/CacheService.java:22-25 | two keys are equal iff same kind and same id: player and team keys, and stats and lock keys, never collide |
| `Keys.Divergence` | src/main/java/com/nba/stats/service/CacheService.java:22-25 | any two of the four prefixes differ at a position inside both |
| `Digits.IntToStringInjective` | src/main/java/com/nba/stats/service/CacheService.java:28-29 | the decimal text appended to a prefix determines the id (both directions) |
| `Codec.Serialize` | src/main/java/com/nba/stats/service/CacheService.java:115 | the text of a row is never the text of null, and null gives exactly the null text |
| `Codec.Deserialize` | src/main/java/com/nba/stats/service/CacheService.java:128 | the null text and only it reads as null; a text read as a row holds exactly that row's fields |
| `Codec.DecodeMessage` | src/main/java/com/nba/stats/service/KafkaConsumerService.java:24 | a text is a notification iff it holds exactly two integer fields, which become the player and team ids |
| `Codec.SerializeRoundTrip` | src/main/java/com/nba/stats/service/CacheService.java:113-135 | reading back the serialised text of a row (or of null) yields exactly that row (or null) |
| `Codec.MessageRoundTrip` | src/main/java/com/nba/stats/service/KafkaConsumerService.java:24 | a notification's text decodes to the same player and team ids |
| `Cache.CachedValue` | src/main/java/com/nba/stats/service/CacheService.java:123-135 | null on a miss or an unreadable text, otherwise the row the stored text reads as |
| `Cache.UpdateThenRead` | src/main/java/com/nba/stats/service/CacheService.java:113-135 | after a row is written under a key, the cache read of that key returns the row (null for null) |
| `Cache.TryLocks` | src/main/java/com/nba/stats/service/CacheService.java:31 | one attempt succeeds iff both lock keys are absent; if the player lock is taken the team lock is not tried and the store is unchanged; a failed attempt after taking the player lock keeps it |
| `Cache.Spin` | src/main/java/com/nba/stats/service/CacheService.java:31-34 | the loop repeats the attempt until one succeeds; a loop that has not succeeded leaves the player lock key present |
| `Cache.SpinHoldsBoth` | src/main/java/com/nba/stats/service/CacheService.java:27-36 | when the lock loop exits, both lock keys hold the same token |
| `Cache.SpinFrame` | src/main/java/com/nba/stats/service/CacheService.java:27-36 | the lock loop writes no key other than the two lock keys |
| `Cache.HeldPlayerLockBlocks` | src/main/java/com/nba/stats/service/CacheService.java:31-34 | while the caller's own player lock is stored, every retry fails and the lock stays |
| `Cache.PartialHoldNeverCompletes` | src/main/java/com/nba/stats/service/CacheService.java:31-34 | a first attempt that gets the player lock but not the team lock never completes unless another client deletes that player lock |
| `Cache.Released` | src/main/java/com/nba/stats/service/CacheService.java:38-43 | once both deletes are served, both lock keys are absent whatever token they held; no other key changes |
| `Cache.Committed` | src/main/java/com/nba/stats/service/CacheService.java:45-56 | after the transaction both stats entries read back as the new rows and every other key is unchanged |
| `Cache.CommitKeepsLocks` | src/main/java/com/nba/stats/service/CacheService.java:45-56 | the cache transaction leaves every lock entry as it was |
| `Cache.CacheService.AcquireLock` | src/main/java/com/nba/stats/service/CacheService.java:64-67 | succeeds iff the key is absent; on success the key holds the token, on failure the store is unchanged |
| `Cache.CacheService.ReleaseLock` | src/main/java/com/nba/stats/service/CacheService.java:69-72 | deletes the key unconditionally, or throws with the store unchanged |
| `Cache.CacheService.TryAcquireLocks` | src/main/java/com/nba/stats/service/CacheService.java:31 | one evaluation of the loop guard has exactly the effect `TryLocks` gives |
| `Cache.CacheService.AcquireLocks` | src/main/java/com/nba/stats/service/CacheService.java:27-36 | the loop's outcome and store are those of `Spin`; on success both lock keys hold the token |
| `Cache.CacheService.ReleaseLocks` | src/main/java/com/nba/stats/service/CacheService.java:38-43 | deletes the player then the team lock; reports failure iff a delete threw |
| `Cache.CacheService.InvalidateCache` | src/main/java/com/nba/stats/service/CacheService.java:84-95 | deletes exactly the two stats keys, in order, until the link drops; never reports an error |
| `Cache.CacheService.UpdateCache` | src/main/java/com/nba/stats/service/CacheService.java:113-121 | overwrites the key with the serialised row, or leaves the store unchanged when the write fails; never reports an error |
| `Cache.CacheService.UpdatePlayerCache` | src/main/java/com/nba/stats/service/CacheService.java:97-99 | the player stats entry then reads back as the given row |
| `Cache.CacheService.UpdateTeamCache` | src/main/java/com/nba/stats/service/CacheService.java:101-103 | the team stats entry then reads back as the given row |
| `Cache.CacheService.AtomicInvalidateAndUpdateCache` | src/main/java/com/nba/stats/service/CacheService.java:45-61 | all-or-nothing: on EXEC success the store is `Committed`, on failure it is unchanged and the call fails |
| `Cache.CacheService.GetCachedStats` | src/main/java/com/nba/stats/service/CacheService.java:123-135 | returns the stored row; null on a miss, unreadable text or an unreachable store; never throws |
| `Cache.CacheService.GetCachedPlayerStats` | src/main/java/com/nba/stats/service/CacheService.java:105-107 | the cached value under the player stats key |
| `Cache.CacheService.GetCachedTeamStats` | src/main/java/com/nba/stats/service/CacheService.java:109-111 | the cached value under the team stats key |
| `Repository.Matching` | src/main/java/com/nba/stats/repository/GameStatsRepository.java:47-62 | the group holds exactly the stored rows whose column equals the id, each as many times as it is stored |
| `Repository.StatsByColumn` | src/main/java/com/nba/stats/repository/GameStatsRepository.java:47-67 | null iff no stored row matches; otherwise a row for that column and id |
| `Repository.StoredLineHasAggregates` | src/main/java/com/nba/stats/repository/GameStatsRepository.java:47-67 | a stored line gives its player and its team non-null aggregates |
| `Repository.GameStatsRepository.InsertGameStats` | src/main/java/com/nba/stats/repository/GameStatsRepository.java:19-37 | appends the line iff the database reports at least one row; zero rows or an access error fail with no row added |
| `Repository.GameStatsRepository.GetPlayerStats` | src/main/java/com/nba/stats/repository/GameStatsRepository.java:39-41 | the player group's aggregate of the current rows, or a failure |
| `Repository.GameStatsRepository.GetTeamStats` | src/main/java/com/nba/stats/repository/GameStatsRepository.java:43-45 | the team group's aggregate of the current rows, or a failure |
| `GameStats.ValidateStats` | src/main/java/com/nba/stats/service/GameStatsService.java:44-62 | accepts iff ids >= 1, counters >= 0, fouls <= 6 and 0 <= minutes <= 48; otherwise reports the first failing check in the order ids, negatives, fouls, minutes |
| `GameStats.GameStatsService.LogGameStats` | src/main/java/com/nba/stats/service/GameStatsService.java:18-34 | invalid input is rejected with no change. Once locks are held, both lock keys are absent on every exit where release is served. A failed insert, query or commit writes no stats entry, whether or not the release then throws. A release that throws after a commit keeps the committed entries and rolls the row back. Success iff every step succeeds; the line is then inserted once and both entries hold the aggregates read after the insert. Every failure rolls the row back |
| `GameStats.GameStatsService.GetPlayerStats` | src/main/java/com/nba/stats/service/GameStatsService.java:36-38 | the cached player row or null; changes nothing and reads no table |
| `GameStats.GameStatsService.GetTeamStats` | src/main/java/com/nba/stats/service/GameStatsService.java:40-42 | the cached team row or null; changes nothing and reads no table |
| `GameStats.ValidLineIsLogged` | src/test/java/com/nba/stats/service/GameStatsServiceTest.java:32-47 | the valid line (1, 2, 3, 20, 5, 3, 1, 1, 2, 1, 35.5) is logged without an exception, after which player 1 has a cached row |
| `Consumer.AfterConsume` | src/main/java/com/nba/stats/service/KafkaConsumerService.java:22-37 | an unreadable message or a failed query leaves the store unchanged; no key other than the two named stats keys changes |
| `Consumer.ConsumeWritesCurrentAggregates` | src/main/java/com/nba/stats/service/KafkaConsumerService.java:27-31 | after a successful consume both named entries hold the current player and team aggregates |
| `Consumer.ConsumeKeepsLocks` | src/main/java/com/nba/stats/service/KafkaConsumerService.java:22-37 | consume leaves every lock entry of every player and team unchanged |
| `Consumer.ConsumeIdempotent` | src/main/java/com/nba/stats/service/KafkaConsumerService.java:27-31 | with the rows unchanged, consuming a message twice leaves the same store as consuming it once |
| `Consumer.KafkaConsumerService.Consume` | src/main/java/com/nba/stats/service/KafkaConsumerService.java:22-37 | the store becomes `AfterConsume` of the old store; no error is ever reported |

## Left out

- Cache.CacheService.AcquireLocks: the source loop is unbounded. The model makes
  `|releasedWhileWaiting| + 1` attempts and then reports `acquired == false`; there the source
  would still be spinning, which `LogGameStats` reports as `Waiting`.
- Cache.CacheService.AcquireLocks: between attempts, other clients only delete keys in the
  model. Their own lock acquisitions are not modelled.
- Cache.CacheService.AcquireLocks: a store failure inside the lock loop is not modelled; every
  set-if-absent there succeeds or reports the key as present.
- Waiting: the 100 ms sleep, and an interrupt during it, are not modelled. An interrupt throws
  out of `acquireLocks` before the `try` block, so no release would run.
- Concurrency: the model is sequential. It cannot state mutual exclusion between writers, the
  race between the refresher and the write path, or what other clients see during MULTI/EXEC.
- JSON: the model uses its own field encoding, not Jackson's text. Jackson reading averages
  back as `Double` instead of `BigDecimal` is not modelled.
- Message decoding: Jackson's handling of missing or unknown fields in a notification is not
  modelled. A message is either exactly two ids or unreadable.
- Averaging: SQL `AVG` and its numeric rounding are the parameter `averageOf`. The model does
  not compute averages.
- Repository.GameStatsRepository.InsertGameStats: the failure message is always
  "Database insert failed". The source appends the driver's message after a data-access error.
- Repository.GameStatsRepository.GetPlayerStats: a query that throws gets a fixed message. The
  database driver's own message is not modelled.
- Numbers: `minutesPlayed` is a real, so a `double` NaN or infinity is not modelled. A NaN
  would pass both range checks of `validateStats`. Java's 32-bit ints are unbounded integers
  here; the code only compares them and prints them as text, so no wrap-around arises.
- Randomness: the lock token from `UUID.randomUUID()` is a parameter.
- The HTTP controller is not part of this model. It maps a `Rejected` outcome
  (`IllegalArgumentException`) to status 400 and a `Failed` outcome to 500.
- Logging, Spring wiring (listener topics, dependency injection) and Lombok are left out.
