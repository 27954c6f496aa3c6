/**
 * The cache's key namespaces. Locks and cached aggregates share one
 * key-value store, so a key is a kind prefix followed by the id's text.
 */
module Keys {
  import opened Wrappers
  import opened Digits

  datatype KeyKind = PlayerStats | TeamStats | PlayerLock | TeamLock

  /** Each prefix ends in ':' and holds neither a digit nor a minus sign, so the id text starts right after it. */
  function Prefix(kind: KeyKind): (p: string)
    ensures |p| > 0 && p[|p| - 1] == ':'
    ensures forall i :: 0 <= i < |p| ==> p[i] != '-' && !IsDigit(p[i])
  {
    match kind
    case PlayerStats => "player:stats:"
    case TeamStats => "team:stats:"
    case PlayerLock => "player:lock:"
    case TeamLock => "team:lock:"
  }

  /** The key of `kind` for subject `id`: prefix + `Integer.toString(id)`. */
  function Key(kind: KeyKind, id: int): (k: string)
    ensures |Prefix(kind)| < |k| && k[..|Prefix(kind)|] == Prefix(kind)
    ensures ParseInt(k[|Prefix(kind)|..]) == Some(id)
  {
    var k := Prefix(kind) + IntToString(id);
    assert k[|Prefix(kind)|..] == IntToString(id);
    IntToStringRoundTrip(id);
    k
  }

  function PlayerStatsKey(playerId: int): string { Key(PlayerStats, playerId) }
  function TeamStatsKey(teamId: int): string { Key(TeamStats, teamId) }
  function PlayerLockKey(playerId: int): string { Key(PlayerLock, playerId) }
  function TeamLockKey(teamId: int): string { Key(TeamLock, teamId) }

  /** A position at which the prefixes of two different kinds disagree. */
  function Divergence(k1: KeyKind, k2: KeyKind): (i: nat)
    requires k1 != k2
    ensures i < |Prefix(k1)| && i < |Prefix(k2)| && Prefix(k1)[i] != Prefix(k2)[i]
  {
    if (k1 == PlayerStats && k2 == PlayerLock) || (k1 == PlayerLock && k2 == PlayerStats) then 7
    else if (k1 == TeamStats && k2 == TeamLock) || (k1 == TeamLock && k2 == TeamStats) then 5
    else 0
  }

  /**
   * Keys are namespaced: two keys are equal exactly when they have the same
   * kind and the same id. So a player key is never a team key, a stats key is
   * never a lock key, and different ids never share a key.
   */
  lemma KeysNamespaced(k1: KeyKind, id1: int, k2: KeyKind, id2: int)
    ensures Key(k1, id1) == Key(k2, id2) <==> k1 == k2 && id1 == id2
  {
    if k1 != k2 {
      var i := Divergence(k1, k2);
      assert Key(k1, id1)[i] == Prefix(k1)[i];
      assert Key(k2, id2)[i] == Prefix(k2)[i];
    } else if Key(k1, id1) == Key(k2, id2) {
      var n := |Prefix(k1)|;
      assert Key(k1, id1)[n..] == IntToString(id1);
      assert Key(k2, id2)[n..] == IntToString(id2);
      IntToStringInjective(id1, id2);
    }
  }
}
