/**
 * The replay scanner as a function of the event log: the counters of
 * `LoaderContext`, the per-move columns of `Gameplay`, one step per
 * 4-event window, the whole pass, and the `dones` post-pass. The classes
 * in module Dataset are proved to compute exactly these values.
 */
module Replay {
  import opened Mjai
  import opened Wrappers
  import opened Tracker
  import opened Labels

  /** The round index and, for oracle scans, the wall positions of `LoaderContext`. */
  datatype Counters = Counters(kyokuIdx: nat, fromRinshan: bool, yamaIdx: nat, rinshanIdx: nat)

  const StartCounters := Counters(0, false, 0, 0)

  /**
   * The bookkeeping on the window head `cur`: every `EndKyoku` starts a new
   * round; in oracle mode it also rewinds both walls, a draw advances the
   * dead wall after a kan and the live wall otherwise, and a kan marks the
   * next draw as coming from the dead wall.
   */
  function Bookkeep(c: Counters, cur: Event, oracle: bool): (r: Counters)
    ensures r.kyokuIdx == c.kyokuIdx + (if cur.EndKyoku? then 1 else 0)
    ensures !oracle ==> r.fromRinshan == c.fromRinshan && r.yamaIdx == c.yamaIdx && r.rinshanIdx == c.rinshanIdx
    ensures oracle && cur.EndKyoku? ==> !r.fromRinshan && r.yamaIdx == 0 && r.rinshanIdx == 0
    ensures oracle && cur.Tsumo? ==> !r.fromRinshan
    ensures oracle && cur.Tsumo? && c.fromRinshan ==> r.rinshanIdx == c.rinshanIdx + 1 && r.yamaIdx == c.yamaIdx
    ensures oracle && cur.Tsumo? && !c.fromRinshan ==> r.yamaIdx == c.yamaIdx + 1 && r.rinshanIdx == c.rinshanIdx
    ensures oracle && IsKan(cur) ==> r.fromRinshan && r.yamaIdx == c.yamaIdx && r.rinshanIdx == c.rinshanIdx
    ensures oracle && !cur.EndKyoku? && !cur.Tsumo? && !IsKan(cur) ==> r == c
  {
    var k := c.kyokuIdx + (if cur.EndKyoku? then 1 else 0);
    if !oracle then c.(kyokuIdx := k)
    else if cur.EndKyoku? then Counters(k, false, 0, 0)
    else if cur.Tsumo? then
      (if c.fromRinshan then c.(rinshanIdx := c.rinshanIdx + 1, fromRinshan := false)
       else c.(yamaIdx := c.yamaIdx + 1))
    else if IsKan(cur) then c.(fromRinshan := true)
    else c
  }

  /** One decision point, as `add_entry` records it. */
  datatype Entry = Entry(
    obs: Matrix,
    invisibleObs: Option<Matrix>,
    action: int,
    mask: seq<bool>,
    atKyoku: U8,
    applyGamma: bool,
    atTurn: U8,
    shanten: I8)

  /** The per-move columns of `Gameplay` (all but `dones`). */
  datatype Columns = Columns(
    obs: seq<Matrix>,
    invisibleObs: seq<Matrix>,
    actions: seq<int>,
    masks: seq<seq<bool>>,
    atKyoku: seq<U8>,
    applyGamma: seq<bool>,
    atTurns: seq<U8>,
    shantens: seq<I8>)

  const EmptyColumns := Columns([], [], [], [], [], [], [], [])

  /** Appends one entry to every column; `invisibleObs` only when the entry has one. */
  function Push(c: Columns, e: Entry): Columns
  {
    Columns(
      c.obs + [e.obs],
      c.invisibleObs + (if e.invisibleObs.Some? then [e.invisibleObs.value] else []),
      c.actions + [e.action],
      c.masks + [e.mask],
      c.atKyoku + [e.atKyoku],
      c.applyGamma + [e.applyGamma],
      c.atTurns + [e.atTurn],
      c.shantens + [e.shanten])
  }

  /** All columns have one entry per record; `invisibleObs` too in oracle mode, none otherwise. */
  ghost predicate Aligned(c: Columns, oracle: bool)
  {
    var n := |c.actions|;
    && |c.obs| == n && |c.masks| == n && |c.atKyoku| == n
    && |c.applyGamma| == n && |c.atTurns| == n && |c.shantens| == n
    && |c.invisibleObs| == (if oracle then n else 0)
  }

  /** Every action is in the action space and is discounted exactly when it is at most reach. */
  ghost predicate WellLabelled(c: Columns)
  {
    && |c.applyGamma| == |c.actions|
    && forall i :: 0 <= i < |c.actions| ==>
         0 <= c.actions[i] < ActionSpace as int && c.applyGamma[i] == (c.actions[i] <= ReachLabel as int)
  }

  /**
   * While fewer than 256 rounds have ended (so the `u8` round column does
   * not wrap), the round column is non-decreasing and never ahead of the
   * current round.
   */
  ghost predicate RoundsOrdered(c: Columns, kyokuIdx: nat)
  {
    kyokuIdx < 256 ==>
      && (forall i, j :: 0 <= i <= j < |c.atKyoku| ==> c.atKyoku[i] <= c.atKyoku[j])
      && (forall i :: 0 <= i < |c.atKyoku| ==> c.atKyoku[i] as int <= kyokuIdx)
  }

  /**
   * What one scan is run with: the collaborators, the loader's `version` and
   * `always_include_kan_select`, the per-round hidden-information
   * reconstructions (present exactly in oracle mode) and the player's seat.
   */
  datatype Setting = Setting(
    env: Env,
    version: nat,
    alwaysKanSelect: bool,
    invisibles: Option<seq<Invisible>>,
    player: Seat)

  /** The mutable part of `LoaderContext`. */
  datatype Ctx = Ctx(state: PlayerState, opponents: Opponents, counters: Counters)

  /** The context a scan starts from: fresh trackers for the player and the three seats after it. */
  function InitialCtx(player: Seat): Ctx
  {
    Ctx(
      NewPlayerState(player),
      [NewPlayerState((player + 1) % 4), NewPlayerState((player + 2) % 4), NewPlayerState((player + 3) % 4)],
      StartCounters)
  }

  /** `invisibles[kyoku_idx]` is in bounds (trivially so outside oracle mode). */
  predicate InBounds(cfg: Setting, kyokuIdx: nat)
  {
    cfg.invisibles.Some? ==> kyokuIdx < |cfg.invisibles.value|
  }

  /** The record `add_entry` builds from the context for the label `code`. */
  function MakeEntry(cfg: Setting, ctx: Ctx, atKanSelect: bool, code: nat): Entry
    requires InBounds(cfg, ctx.counters.kyokuIdx)
  {
    var (feature, mask) := cfg.env.encodeObs(ctx.state, cfg.version, atKanSelect);
    Entry(
      feature,
      if cfg.invisibles.Some? then
        Some(cfg.env.encodeInvisible(
          cfg.invisibles.value[ctx.counters.kyokuIdx], ctx.opponents,
          ctx.counters.yamaIdx, ctx.counters.rinshanIdx, cfg.version))
      else None,
      code,
      mask,
      (ctx.counters.kyokuIdx % 256) as U8,
      code <= ReachLabel,
      cfg.env.atTurn(ctx.state),
      cfg.env.shanten(ctx.state))
  }

  /** The records of one label choice: none, the primary one, or the primary one and the kan select. */
  function Emit(cfg: Setting, ctx: Ctx, cols: Columns, choice: Option<Choice>): Columns
    requires InBounds(cfg, ctx.counters.kyokuIdx)
  {
    match choice
    case None => cols
    case Some(Choice(code, kanSelect)) =>
      var primary := Push(cols, MakeEntry(cfg, ctx, false, code));
      if kanSelect.Some? then Push(primary, MakeEntry(cfg, ctx, true, kanSelect.value)) else primary
  }

  /** The label choice of a window, given the context after the head was fed to the trackers. */
  function WindowChoice(cfg: Setting, ctx: Ctx, w: Window): Option<Choice>
  {
    var cans := cfg.env.cans(ctx.state);
    if !cans.canAct then None
    else ChooseLabel(cfg.env, cfg.player, w, cans, cfg.alwaysKanSelect,
                     cfg.env.kakanCandidates(ctx.state), cfg.env.ankanCandidates(ctx.state))
  }

  /** The whole state one scan carries: context, the recorded player name, and the columns. */
  datatype ScanState = ScanState(ctx: Ctx, playerName: string, cols: Columns)

  /** The three opponents' trackers, each fed `e`. */
  function FeedAll(opponents: Opponents, e: Event): Opponents
  {
    [Feed(opponents[0], e), Feed(opponents[1], e), Feed(opponents[2], e)]
  }

  /** The wall positions and round index right after the head `w[0]` is booked. */
  function NextCounters(cfg: Setting, s: ScanState, w: Window): Counters
  {
    Bookkeep(s.ctx.counters, w[0], cfg.invisibles.Some?)
  }

  /** `extend_from_event_window` as a function of the scan state. */
  function StepWindow(cfg: Setting, s: ScanState, w: Window): ScanState
    requires InBounds(cfg, NextCounters(cfg, s, w).kyokuIdx)
  {
    var cur := w[0];
    var ctx := Ctx(
      Feed(s.ctx.state, cur),
      if cfg.invisibles.Some? then FeedAll(s.ctx.opponents, cur) else s.ctx.opponents,
      NextCounters(cfg, s, w));
    var name := if cur.StartGame? then cur.names[cfg.player] else s.playerName;
    ScanState(ctx, name, Emit(cfg, ctx, s.cols, WindowChoice(cfg, ctx, w)))
  }

  /** The invariant every scan state keeps. */
  ghost predicate Inv(cfg: Setting, s: ScanState)
  {
    && Aligned(s.cols, cfg.invisibles.Some?)
    && WellLabelled(s.cols)
    && RoundsOrdered(s.cols, s.ctx.counters.kyokuIdx)
  }

  lemma PushEntry(cfg: Setting, ctx: Ctx, c: Columns, atKanSelect: bool, code: nat)
    requires InBounds(cfg, ctx.counters.kyokuIdx)
    requires code < ActionSpace
    requires Inv(cfg, ScanState(ctx, "", c))
    ensures Inv(cfg, ScanState(ctx, "", Push(c, MakeEntry(cfg, ctx, atKanSelect, code))))
  {
    var c' := Push(c, MakeEntry(cfg, ctx, atKanSelect, code));
    var k := ctx.counters.kyokuIdx;
    if k < 256 {
      assert c'.atKyoku[|c.atKyoku|] as int == k;
    }
  }

  /** Every window keeps the invariant. */
  lemma StepPreservesInv(cfg: Setting, s: ScanState, w: Window)
    requires InBounds(cfg, NextCounters(cfg, s, w).kyokuIdx)
    requires Inv(cfg, s)
    ensures Inv(cfg, StepWindow(cfg, s, w))
  {
    var t := StepWindow(cfg, s, w);
    var ctx := t.ctx;
    var choice := WindowChoice(cfg, ctx, w);
    // The round can only move forward, so the old records stay behind it.
    assert Inv(cfg, ScanState(ctx, "", s.cols));
    match choice
    case None =>
    case Some(Choice(code, kanSelect)) =>
      PushEntry(cfg, ctx, s.cols, false, code);
      if kanSelect.Some? {
        PushEntry(cfg, ctx, Push(s.cols, MakeEntry(cfg, ctx, false, code)), true, kanSelect.value);
      }
  }

  /**
   * One window adds at most two records and keeps the earlier ones; none
   * when the tracker reports no possible action; and a second one only
   * after a kan label, carrying the de-reddened kan tile.
   */
  lemma StepRecords(cfg: Setting, s: ScanState, w: Window)
    requires InBounds(cfg, NextCounters(cfg, s, w).kyokuIdx)
    ensures var t := StepWindow(cfg, s, w);
            var n := |s.cols.actions|;
            var cans := cfg.env.cans(Feed(s.ctx.state, w[0]));
            && n <= |t.cols.actions| <= n + 2
            && t.cols.actions[..n] == s.cols.actions
            && (!cans.canAct ==> t.cols == s.cols)
            && (|t.cols.actions| == n + 2 ==>
                  && t.cols.actions[n] == KanLabel as int
                  && IsKan(NextEvent(w))
                  && t.cols.actions[n + 1] == cfg.env.deaka(KanTile(NextEvent(w))) as int)
  {
    var t := StepWindow(cfg, s, w);
    var n := |s.cols.actions|;
    match WindowChoice(cfg, t.ctx, w)
    case None =>
    case Some(Choice(code, kanSelect)) =>
      if kanSelect.Some? {
        assert t.cols.actions == s.cols.actions + [code as int] + [kanSelect.value as int];
      } else {
        assert t.cols.actions == s.cols.actions + [code as int];
      }
  }

  /** Number of windows `events.windows(4)` yields. */
  function WindowCount(events: seq<Event>): nat
  {
    if |events| >= 3 then |events| - 3 else 0
  }

  /** The window `events.windows(4)` yields at position `i`. */
  function WindowAt(events: seq<Event>, i: nat): Window
    requires i + 4 <= |events|
  {
    events[i..i + 4]
  }

  /** In oracle mode, the rounds begun by the first `k` window heads all have a reconstruction. */
  predicate Covered(invisibles: Option<seq<Invisible>>, events: seq<Event>, k: nat)
    requires k <= |events|
  {
    invisibles.Some? && k > 0 ==> CountEndKyoku(events[..k]) < |invisibles.value|
  }

  /** Coverage of the first `n` window heads covers every shorter prefix. */
  lemma CoveredPrefix(invisibles: Option<seq<Invisible>>, events: seq<Event>, i: nat, n: nat)
    requires i <= n <= |events|
    requires Covered(invisibles, events, n)
    ensures Covered(invisibles, events, i)
  {
    CountEndKyokuMonotone(events, i, n);
  }

  /**
   * The trackers after the first `k` window heads: the player's (and in
   * oracle mode each opponent's) has been fed exactly those events.
   */
  ghost predicate Fed(cfg: Setting, events: seq<Event>, k: nat, ctx: Ctx)
    requires k <= |events|
  {
    && ctx.state == PlayerState(cfg.player, events[..k])
    && forall j :: 0 <= j < 3 ==>
         ctx.opponents[j] == PlayerState((cfg.player + j + 1) % 4, if cfg.invisibles.Some? then events[..k] else [])
  }

  /**
   * What holds after the first `k` windows: the trackers have been fed
   * exactly the first `k` events, the round index counts the `EndKyoku`
   * among them, and the invariant holds.
   */
  ghost predicate Reached(cfg: Setting, events: seq<Event>, k: nat, s: ScanState)
    requires k <= |events|
  {
    && s.ctx.counters.kyokuIdx == CountEndKyoku(events[..k])
    && Fed(cfg, events, k, s.ctx)
    && Inv(cfg, s)
  }

  /** Feeding the head `events[k - 1]` moves `Fed` from `k - 1` to `k`. */
  lemma FedStep(cfg: Setting, events: seq<Event>, k: nat, ctx: Ctx)
    requires 0 < k <= |events|
    requires Fed(cfg, events, k - 1, ctx)
    ensures Fed(cfg, events, k, ctx.(
      state := Feed(ctx.state, events[k - 1]),
      opponents := if cfg.invisibles.Some? then FeedAll(ctx.opponents, events[k - 1]) else ctx.opponents))
  {
    assert events[..k] == events[..k - 1] + [events[k - 1]];
  }

  /** One more window moves `Reached` from `k - 1` to `k`. */
  lemma ScanStep(cfg: Setting, events: seq<Event>, k: nat, prev: ScanState)
    requires 0 < k <= WindowCount(events)
    requires Covered(cfg.invisibles, events, k)
    requires Reached(cfg, events, k - 1, prev)
    ensures InBounds(cfg, NextCounters(cfg, prev, WindowAt(events, k - 1)).kyokuIdx)
    ensures Reached(cfg, events, k, StepWindow(cfg, prev, WindowAt(events, k - 1)))
  {
    var w := WindowAt(events, k - 1);
    KyokuStep(cfg, events, k, prev);
    StepPreservesInv(cfg, prev, w);
    FedStep(cfg, events, k, prev.ctx);
  }

  /** Before any window, nothing has been fed and nothing recorded. */
  lemma ScanStart(cfg: Setting, events: seq<Event>)
    ensures Reached(cfg, events, 0, ScanState(InitialCtx(cfg.player), "", EmptyColumns))
  {
    assert events[..0] == [];
  }

  /** The round index after the head `events[k - 1]` counts the `EndKyoku` among the first `k` events. */
  lemma KyokuStep(cfg: Setting, events: seq<Event>, k: nat, prev: ScanState)
    requires 0 < k <= WindowCount(events)
    requires prev.ctx.counters.kyokuIdx == CountEndKyoku(events[..k - 1])
    ensures NextCounters(cfg, prev, WindowAt(events, k - 1)).kyokuIdx == CountEndKyoku(events[..k])
  {
    assert events[..k][..k - 1] == events[..k - 1];
  }

  /** The state after the first `k` windows; its round index counts the rounds ended so far. */
  function ScanUpTo(cfg: Setting, events: seq<Event>, k: nat): (s: ScanState)
    requires k <= WindowCount(events)
    requires Covered(cfg.invisibles, events, k)
    ensures s.ctx.counters.kyokuIdx == CountEndKyoku(events[..k])
    decreases k
  {
    if k == 0 then
      ScanState(InitialCtx(cfg.player), "", EmptyColumns)
    else
      CountEndKyokuMonotone(events, k - 1, k);
      var prev := ScanUpTo(cfg, events, k - 1);
      KyokuStep(cfg, events, k, prev);
      StepWindow(cfg, prev, WindowAt(events, k - 1))
  }

  /** Every prefix scan has fed exactly the events it passed and keeps the invariant. */
  lemma {:induction false} ScanReached(cfg: Setting, events: seq<Event>, k: nat)
    requires k <= WindowCount(events)
    requires Covered(cfg.invisibles, events, k)
    ensures Reached(cfg, events, k, ScanUpTo(cfg, events, k))
    decreases k
  {
    if k == 0 {
      ScanStart(cfg, events);
    } else {
      CoveredPrefix(cfg.invisibles, events, k - 1, k);
      ScanReached(cfg, events, k - 1);
      ScanStep(cfg, events, k, ScanUpTo(cfg, events, k - 1));
    }
  }

  /** One more window is one more `StepWindow`. */
  lemma ScanNext(cfg: Setting, events: seq<Event>, k: nat)
    requires k < WindowCount(events)
    requires Covered(cfg.invisibles, events, k + 1)
    ensures Covered(cfg.invisibles, events, k)
    ensures InBounds(cfg, NextCounters(cfg, ScanUpTo(cfg, events, k), WindowAt(events, k)).kyokuIdx)
    ensures ScanUpTo(cfg, events, k + 1) == StepWindow(cfg, ScanUpTo(cfg, events, k), WindowAt(events, k))
  {
    CoveredPrefix(cfg.invisibles, events, k, k + 1);
    KyokuStep(cfg, events, k + 1, ScanUpTo(cfg, events, k));
  }

  /** The state after all windows of the log. */
  function Scan(cfg: Setting, events: seq<Event>): ScanState
    requires Covered(cfg.invisibles, events, WindowCount(events))
  {
    ScanUpTo(cfg, events, WindowCount(events))
  }

  /** With fewer than four events there is no window, hence no record. */
  lemma ShortLogNoRecords(cfg: Setting, events: seq<Event>)
    requires |events| < 4
    ensures Covered(cfg.invisibles, events, WindowCount(events))
    ensures Scan(cfg, events).cols == EmptyColumns
  {
  }

  /**
   * The `dones` post-pass: for each record whether the next record belongs
   * to a later round, and `true` for the last record (and for the lone
   * entry when there are no records).
   */
  function Dones(atKyoku: seq<U8>): (dones: seq<bool>)
    ensures |dones| == if |atKyoku| == 0 then 1 else |atKyoku|
    ensures dones[|dones| - 1]
    ensures forall i :: 0 <= i < |atKyoku| - 1 ==> dones[i] == (atKyoku[i] < atKyoku[i + 1])
  {
    seq(if |atKyoku| < 2 then 0 else |atKyoku| - 1, i requires 0 <= i < |atKyoku| - 1 => atKyoku[i + 1] > atKyoku[i])
    + [true]
  }

  /**
   * On a scan's non-decreasing round column, a record is a boundary exactly
   * when it is the last one or the next record's round differs.
   */
  lemma {:induction false} DonesMarkRoundEnds(cfg: Setting, events: seq<Event>, i: nat)
    requires Covered(cfg.invisibles, events, WindowCount(events))
    requires CountEndKyoku(events[..WindowCount(events)]) < 256
    requires i < |Scan(cfg, events).cols.atKyoku|
    ensures var a := Scan(cfg, events).cols.atKyoku;
            Dones(a)[i] <==> i == |a| - 1 || a[i] != a[i + 1]
  {
    var a := Scan(cfg, events).cols.atKyoku;
    ScanReached(cfg, events, WindowCount(events));
    if i < |a| - 1 {
      assert a[i] <= a[i + 1];
    }
  }

  /**
   * A four-event log [StartGame, Tsumo, Dahai, Tsumo] has a single window,
   * headed by `StartGame` with a draw as lookahead: whatever the trackers
   * report, it yields no discard record, and at most one pass record.
   */
  lemma {:induction false} FourEventLog(cfg: Setting, names: Names, t0: Tile, a: Tile, t1: Tile)
    requires cfg.invisibles.Some? ==> |cfg.invisibles.value| > 0
    ensures var events := [StartGame(names), Tsumo(0, t0), Dahai(0, a, false), Tsumo(1, t1)];
            && Covered(cfg.invisibles, events, WindowCount(events))
            && |Scan(cfg, events).cols.actions| <= 1
            && forall i :: 0 <= i < |Scan(cfg, events).cols.actions| ==>
                 Scan(cfg, events).cols.actions[i] == PassLabel as int
  {
    var events := [StartGame(names), Tsumo(0, t0), Dahai(0, a, false), Tsumo(1, t1)];
    assert events[..1] == [StartGame(names)];
    var w: Window := events[0..4];
    assert WindowCount(events) == 1;
    var init := ScanUpTo(cfg, events, 0);
    ScanReached(cfg, events, 0);
    StepRecords(cfg, init, w);
    assert NextEvent(w) == Tsumo(0, t0);
  }
}
