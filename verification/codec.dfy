/**
 * The values that travel as text: the aggregate rows written to the cache and
 * the update notifications read from the message bus.
 *
 * The repository serialises with a JSON library. This model replaces that
 * text with its own encoding (each field as a decimal integer followed by
 * ';'), keeps the JSON text "null" for a null aggregate, and proves the round
 * trip that the cache relies on instead of assuming it.
 */
module Codec {
  import opened Wrappers
  import opened Digits

  /** The column an aggregate is grouped by, and the name of its id field. */
  datatype Column = PlayerId | TeamId

  /** A `BigDecimal`: `unscaled` times ten to the power `-scale`. */
  datatype Decimal = Decimal(unscaled: int, scale: int)

  /** The eight averages of one aggregate row. */
  datatype Averages = Averages(
    points: Decimal, rebounds: Decimal, assists: Decimal, steals: Decimal,
    blocks: Decimal, fouls: Decimal, turnovers: Decimal, minutesPlayed: Decimal)

  /** One aggregate row: the grouping column, its id and the averages over that group. */
  datatype Aggregate = Aggregate(column: Column, subjectId: int, averages: Averages)

  /** The body of a notification on the message bus. */
  datatype UpdateMessage = UpdateMessage(playerId: int, teamId: int)

  const NullText: string := "null"

  // ---- a sequence of integers as text ----

  function EncodeFields(xs: seq<int>): (s: string)
    ensures |xs| > 0 ==> |s| > 0 && s[|s| - 1] == ';'
  {
    if xs == [] then "" else IntToString(xs[0]) + ";" + EncodeFields(xs[1..])
  }

  /** The first position of `c` in `s`, or `|s|` when there is none. */
  function IndexOf(s: string, c: char): (i: nat)
    ensures i <= |s| && (i < |s| ==> s[i] == c)
    ensures forall j :: 0 <= j < i ==> s[j] != c
  {
    if |s| == 0 || s[0] == c then 0 else 1 + IndexOf(s[1..], c)
  }

  function DecodeFields(s: string): Option<seq<int>>
    decreases |s|
  {
    if s == [] then Some([])
    else
      var i := IndexOf(s, ';');
      if i == |s| then None
      else match ParseInt(s[..i])
        case None => None
        case Some(x) =>
          match DecodeFields(s[i + 1..])
          case None => None
          case Some(xs) => Some([x] + xs)
  }

  lemma IndexOfAfterPrefix(a: string, c: char, b: string)
    requires forall j :: 0 <= j < |a| ==> a[j] != c
    ensures IndexOf(a + [c] + b, c) == |a|
  {
    var s := a + [c] + b;
    assert s[|a|] == c;
    assert forall j :: 0 <= j < |a| ==> s[j] == a[j];
  }

  /** Decoding the text of a sequence of integers gives the sequence back. */
  lemma {:induction false} FieldsRoundTrip(xs: seq<int>)
    ensures DecodeFields(EncodeFields(xs)) == Some(xs)
  {
    if xs != [] {
      var head, tail := IntToString(xs[0]), EncodeFields(xs[1..]);
      var s := EncodeFields(xs);
      assert s == head + [';'] + tail;
      IndexOfAfterPrefix(head, ';', tail);
      assert s[..|head|] == head;
      assert s[|head| + 1..] == tail;
      IntToStringRoundTrip(xs[0]);
      FieldsRoundTrip(xs[1..]);
      assert [xs[0]] + xs[1..] == xs;
    }
  }

  // ---- aggregates ----

  function ColumnCode(c: Column): int {
    match c
    case PlayerId => 0
    case TeamId => 1
  }

  function Fields(a: Aggregate): seq<int> {
    var v := a.averages;
    [ColumnCode(a.column), a.subjectId,
     v.points.unscaled, v.points.scale, v.rebounds.unscaled, v.rebounds.scale,
     v.assists.unscaled, v.assists.scale, v.steals.unscaled, v.steals.scale,
     v.blocks.unscaled, v.blocks.scale, v.fouls.unscaled, v.fouls.scale,
     v.turnovers.unscaled, v.turnovers.scale, v.minutesPlayed.unscaled, v.minutesPlayed.scale]
  }

  function FromFields(f: seq<int>): (r: Option<Aggregate>)
    ensures r.Some? <==> |f| == 18 && 0 <= f[0] <= 1
    ensures r.Some? ==> Fields(r.value) == f
  {
    if |f| != 18 || !(0 <= f[0] <= 1) then None
    else
      Some(Aggregate(
        if f[0] == 0 then PlayerId else TeamId, f[1],
        Averages(Decimal(f[2], f[3]), Decimal(f[4], f[5]), Decimal(f[6], f[7]), Decimal(f[8], f[9]),
                 Decimal(f[10], f[11]), Decimal(f[12], f[13]), Decimal(f[14], f[15]), Decimal(f[16], f[17]))))
  }

  /** `writeValueAsString` of an aggregate row, which may be null. */
  function Serialize(s: Option<Aggregate>): (text: string)
    ensures text == NullText <==> s.None?
  {
    match s
    case None => NullText
    case Some(a) =>
      assert NullText[|NullText| - 1] == 'l';
      EncodeFields(Fields(a))
  }

  /**
   * `readValue` of a cached text: `None` when the text cannot be read (the
   * library throws), `Some(None)` for the text of null, `Some(Some(a))` for a row.
   */
  function Deserialize(text: string): (r: Option<Option<Aggregate>>)
    ensures r == Some(None) <==> text == NullText
    ensures r.Some? && r.value.Some? ==> DecodeFields(text) == Some(Fields(r.value.value))
  {
    if text == NullText then Some(None)
    else
      match DecodeFields(text)
      case None => None
      case Some(f) => if FromFields(f).Some? then Some(FromFields(f)) else None
  }

  /** Serialising and reading back yields the same row, or null for null. */
  lemma SerializeRoundTrip(s: Option<Aggregate>)
    ensures Deserialize(Serialize(s)) == Some(s)
  {
    if s.Some? {
      var text := Serialize(s);
      assert text[|text| - 1] == ';';
      assert NullText[|NullText| - 1] == 'l';
      FieldsRoundTrip(Fields(s.value));
    }
  }

  // ---- notifications ----

  function EncodeMessage(m: UpdateMessage): string {
    EncodeFields([m.playerId, m.teamId])
  }

  /** `readValue(message, GameStatsUpdateMessage.class)`: `None` when the text is not a message. */
  function DecodeMessage(text: string): (r: Option<UpdateMessage>)
    ensures r.Some? <==> DecodeFields(text).Some? && |DecodeFields(text).value| == 2
    ensures r.Some? ==> DecodeFields(text) == Some([r.value.playerId, r.value.teamId])
  {
    match DecodeFields(text)
    case Some(f) =>
      if |f| == 2 then
        assert f == [f[0], f[1]];
        Some(UpdateMessage(f[0], f[1]))
      else None
    case None => None
  }

  lemma MessageRoundTrip(m: UpdateMessage)
    ensures DecodeMessage(EncodeMessage(m)) == Some(m)
  {
    FieldsRoundTrip([m.playerId, m.teamId]);
  }
}
