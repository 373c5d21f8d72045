/**
 * The collaborators of the scanner, outside this model: the per-player
 * state tracker (`PlayerState`), the hidden-information reconstruction
 * (`Invisible`), the round-outcome extractor (`Grp`), the chi classifier
 * (`ChiType::new`) and `Tile::deaka`. Their behaviour is left open: an
 * `Env` holds one arbitrary total function for each, so everything proved
 * about the scanner holds whatever they compute.
 */
module Tracker {
  import opened Mjai
  import opened Wrappers

  /** A feature matrix (`Array2<f32>`); its contents are never inspected. */
  datatype Matrix = Matrix(rows: seq<seq<real>>)

  /** One round's hidden-information reconstruction; opaque. */
  datatype Invisible = Invisible(payload: seq<int>)

  /** Per-game round outcome data; opaque. The empty payload is `Default`. */
  datatype Grp = Grp(payload: seq<int>)

  const DefaultGrp := Grp([])

  /** The chi classifier's answer: where the called tile sits in the run. */
  datatype ChiType = Low | Mid | High

  /**
   * The part of `ActionCandidate` the scanner reads, as returned by
   * `PlayerState::update`: `canAct` is `can_act()`, `canChi` is `can_chi()`.
   */
  datatype Cans = Cans(
    canAct: bool,
    canChi: bool,
    canPon: bool,
    canDaiminkan: bool,
    canRonAgari: bool,
    canRyukyoku: bool)

  /**
   * A player's tracker. It is deterministic, so its internal state is a
   * function of its seat and of the events it has been fed; keeping exactly
   * those makes every observation below a function of the state.
   */
  datatype PlayerState = PlayerState(playerId: Seat, seen: seq<Event>)

  /** `PlayerState::new(player_id)`. */
  function NewPlayerState(playerId: Seat): PlayerState
  {
    PlayerState(playerId, [])
  }

  /** The state change of `PlayerState::update(event)`. */
  function Feed(s: PlayerState, e: Event): PlayerState
  {
    PlayerState(s.playerId, s.seen + [e])
  }

  /** The three opponents' trackers of an oracle scan. */
  type Opponents = s: seq<PlayerState> | |s| == 3
    witness [PlayerState(0, []), PlayerState(0, []), PlayerState(0, [])]

  /**
   * The collaborators' observable behaviour:
   *   cans             the candidate set `update` returns, read off the updated state
   *   encodeObs        `encode_obs(version, at_kan_select)`: features and legality mask
   *   atTurn, shanten  `at_turn()`, `shanten()`
   *   kakanCandidates, ankanCandidates  `kakan_candidates().len()`, `ankan_candidates().len()`
   *   chiType          `ChiType::new(consumed, pai)`
   *   deaka            `Tile::deaka` (a red five to its ordinary five)
   *   newInvisibles    `Invisible::new(events, trust_seed)`, one entry per round
   *   encodeInvisible  `Invisible::encode(opponents, yama_idx, rinshan_idx, version)`
   *   loadGrp          `Grp::load_events(events)`, `None` standing for its error
   */
  datatype Env = Env(
    cans: PlayerState -> Cans,
    encodeObs: (PlayerState, nat, bool) -> (Matrix, seq<bool>),
    atTurn: PlayerState -> U8,
    shanten: PlayerState -> I8,
    kakanCandidates: PlayerState -> nat,
    ankanCandidates: PlayerState -> nat,
    chiType: (seq<Tile>, Tile) -> ChiType,
    deaka: Tile -> Tile,
    newInvisibles: (seq<Event>, bool) -> seq<Invisible>,
    encodeInvisible: (Invisible, Opponents, nat, nat, nat) -> Matrix,
    loadGrp: seq<Event> -> Option<Grp>)
}
