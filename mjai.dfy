/**
 * The mjai protocol vocabulary the scanner reads: seats, tiles and the
 * closed sum type of log events. Payload fields that the scanner never
 * inspects (scores, deltas, dora markers of a new round, ...) are omitted.
 */
module Mjai {

  /** A seat index, 0..3 (the protocol's `actor` and the loader's `player_id`). */
  type Seat = s: nat | s < 4

  /**
   * A tile by its 37-way identity (`Tile::as_usize`): 34 ordinary kinds and
   * the three red fives. The range is all the scanner relies on.
   */
  newtype Tile = t: int | 0 <= t < 37

  /** Rust's `u8`, as stored in the `at_kyoku` and `at_turns` columns. */
  newtype U8 = x: int | 0 <= x < 256

  /** Rust's `i8`, as stored in the `shantens` column. */
  newtype I8 = x: int | -128 <= x < 128

  /** The four participant names of `StartGame` (`[String; 4]`). */
  type Names = s: seq<string> | |s| == 4 witness ["", "", "", ""]

  /**
   * The tiles taken from the hand by a call: two for chi and pon, three for
   * daiminkan and kakan, four for ankan.
   */
  type Consumed = s: seq<Tile> | 2 <= |s| <= 4 witness [0, 0]

  datatype Event =
    | StartGame(names: Names)
    | StartKyoku
    | Tsumo(actor: Seat, pai: Tile)
    | Dahai(actor: Seat, pai: Tile, tsumogiri: bool)
    | Chi(actor: Seat, target: Seat, pai: Tile, consumed: Consumed)
    | Pon(actor: Seat, target: Seat, pai: Tile, consumed: Consumed)
    | Daiminkan(actor: Seat, target: Seat, pai: Tile, consumed: Consumed)
    | Kakan(actor: Seat, pai: Tile, consumed: Consumed)
    | Ankan(actor: Seat, consumed: Consumed)
    | Dora(doraMarker: Tile)
    | Reach(actor: Seat)
    | ReachAccepted(actor: Seat)
    | Hora(actor: Seat, target: Seat)
    | Ryukyoku
    | EndKyoku
    | EndGame

  /** Four consecutive events, as yielded by `events.windows(4)`. */
  type Window = w: seq<Event> | |w| == 4 witness [EndGame, EndGame, EndGame, EndGame]

  /** Any of the three kan declarations. */
  predicate IsKan(e: Event)
  {
    e.Ankan? || e.Kakan? || e.Daiminkan?
  }

  /** A `Hora` declared by `player`. */
  predicate IsHoraBy(e: Event, player: Seat)
  {
    e.Hora? && e.actor == player
  }

  /** Number of `EndKyoku` events in `events`. */
  function CountEndKyoku(events: seq<Event>): nat
  {
    if events == [] then 0
    else CountEndKyoku(events[..|events| - 1]) + (if events[|events| - 1].EndKyoku? then 1 else 0)
  }

  /** Counting rounds over a longer prefix never gives fewer. */
  lemma {:induction false} CountEndKyokuMonotone(events: seq<Event>, a: nat, b: nat)
    requires a <= b <= |events|
    ensures CountEndKyoku(events[..a]) <= CountEndKyoku(events[..b])
    decreases b - a
  {
    if a < b {
      CountEndKyokuMonotone(events, a, b - 1);
      assert events[..b][..b - 1] == events[..b - 1];
    }
  }
}
