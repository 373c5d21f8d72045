/**
 * `GameplayLoader`, `LoaderContext` and `Gameplay`: the loader
 * configuration, the per-scan cursor and the per-player column buffers,
 * with the methods that fill and drain them. The scanning methods and
 * the loaders are proved equal to the functions of module Replay; each
 * drain returns its column's prior contents and leaves it empty.
 */
module Dataset {
  import opened Mjai
  import opened Wrappers
  import opened Tracker
  import opened Labels
  import opened Replay
  import NameLists

  /** Why a log or a batch could not be loaded. */
  datatype LoadError =
    | InvalidLog                                // "empty or invalid game log"
    | GrpFailed                                 // `Grp::load_events` failed
    | InFile(filename: string, cause: LoadError) // "error when reading {filename}"

  /** The seat filter: the allow-list alone if it is non-empty, else the deny-list, else everyone. */
  function Keeps(allow: set<string>, deny: set<string>, name: string): bool
  {
    if allow != {} then name in allow
    else if deny != {} then name !in deny
    else true
  }

  /** The kept seats among `i..3`, in increasing order. */
  function SelectFrom(names: Names, allow: set<string>, deny: set<string>, i: nat): (r: seq<Seat>)
    requires i <= 4
    ensures forall a, b :: 0 <= a < b < |r| ==> r[a] < r[b]
    ensures forall k :: 0 <= k < |r| ==> i <= r[k]
    ensures forall s: Seat :: s in r <==> i <= s && Keeps(allow, deny, names[s])
    decreases 4 - i
  {
    if i == 4 then []
    else (if Keeps(allow, deny, names[i]) then [i as Seat] else []) + SelectFrom(names, allow, deny, i + 1)
  }

  /** The selected seats of a game, in increasing order: the indices of the kept names. */
  function SelectSeats(names: Names, allow: set<string>, deny: set<string>): (r: seq<Seat>)
    ensures forall a, b :: 0 <= a < b < |r| ==> r[a] < r[b]
    ensures forall s: Seat :: s in r <==> Keeps(allow, deny, names[s])
  {
    SelectFrom(names, allow, deny, 0)
  }

  /** A non-empty allow-list decides alone: the deny-list has no effect. */
  lemma {:induction false} AllowListIgnoresDenyList(
    names: Names, allow: set<string>, deny1: set<string>, deny2: set<string>, i: nat)
    requires allow != {}
    requires i <= 4
    ensures SelectFrom(names, allow, deny1, i) == SelectFrom(names, allow, deny2, i)
    decreases 4 - i
  {
    if i < 4 {
      AllowListIgnoresDenyList(names, allow, deny1, deny2, i + 1);
    }
  }

  /** With neither list, every seat is selected. */
  lemma NoFilterSelectsAll(names: Names)
    ensures SelectSeats(names, {}, {}) == [0, 1, 2, 3]
  {
  }

  /** The concatenation of the parts, in order. */
  function Concat<T>(parts: seq<seq<T>>): seq<T>
  {
    if parts == [] then [] else parts[0] + Concat(parts[1..])
  }

  /**
   * `load_gz_log_files`, with reading, decompressing and loading one file
   * left to `loadFile`: the gameplays of all files, in order, or the error
   * of a failing file, tagged with its name.
   */
  function LoadGzLogFiles<T>(files: seq<string>, loadFile: string -> Result<seq<T>, LoadError>): (r: Result<seq<T>, LoadError>)
    ensures r.Success? <==> forall k :: 0 <= k < |files| ==> loadFile(files[k]).Success?
    ensures r.Failure? ==>
              exists k :: 0 <= k < |files| && loadFile(files[k]).Failure?
                          && r.error == InFile(files[k], loadFile(files[k]).error)
    ensures r.Success? ==>
              r.value == Concat(seq(|files|, k requires 0 <= k < |files| => loadFile(files[k]).value))
  {
    if files == [] then Success([])
    else
      match loadFile(files[0])
      case Failure(e) => Failure(InFile(files[0], e))
      case Success(first) =>
        match LoadGzLogFiles(files[1..], loadFile)
        case Failure(e) => Failure(e)
        case Success(rest) =>
          assert seq(|files|, k requires 0 <= k < |files| => loadFile(files[k]).value)[1..]
              == seq(|files| - 1, k requires 0 <= k < |files| - 1 => loadFile(files[1..][k]).value);
          Success(first + rest)
  }

  class GameplayLoader {
    const version: nat
    const oracle: bool
    const playerNames: seq<string>
    const excludes: seq<string>
    const trustSeed: bool
    const alwaysIncludeKanSelect: bool
    const playerNamesSet: set<string>
    const excludesSet: set<string>

    /**
     * `GameplayLoader::new`: both name lists are sorted and deduplicated
     * (a missing list is empty) and their membership sets built from them.
     */
    constructor (
      version: nat, oracle: bool, playerNames: Option<seq<string>>, excludes: Option<seq<string>>,
      trustSeed: bool, alwaysIncludeKanSelect: bool)
      ensures this.version == version && this.oracle == oracle && this.trustSeed == trustSeed
      ensures this.alwaysIncludeKanSelect == alwaysIncludeKanSelect
      ensures NameLists.StrictlyAscending(this.playerNames)
      ensures forall x :: x in this.playerNames <==> playerNames.Some? && x in playerNames.value
      ensures NameLists.StrictlyAscending(this.excludes)
      ensures forall x :: x in this.excludes <==> excludes.Some? && x in excludes.value
      ensures playerNamesSet == set x | x in this.playerNames
      ensures excludesSet == set x | x in this.excludes
    {
      var names := NameLists.SortDedup(if playerNames.Some? then playerNames.value else []);
      var denied := NameLists.SortDedup(if excludes.Some? then excludes.value else []);
      this.version := version;
      this.oracle := oracle;
      this.playerNames := names;
      this.excludes := denied;
      this.trustSeed := trustSeed;
      this.alwaysIncludeKanSelect := alwaysIncludeKanSelect;
      this.playerNamesSet := set x | x in names;
      this.excludesSet := set x | x in denied;
    }

    /** The scan setting of one seat, given the collaborators and the reconstructions. */
    function SettingFor(env: Env, invisibles: Option<seq<Invisible>>, player: Seat): Setting
    {
      Setting(env, version, alwaysIncludeKanSelect, invisibles, player)
    }

    /** The reconstructions `load_events` builds: present exactly in oracle mode. */
    function Invisibles(env: Env, events: seq<Event>): Option<seq<Invisible>>
    {
      if oracle then Some(env.newInvisibles(events, trustSeed)) else None
    }

    /**
     * `load_events`: fails on a log that does not start with `StartGame`;
     * otherwise scans the log once per selected seat, in seat order (the
     * source runs these scans in parallel; they share nothing mutable).
     */
    method LoadEvents(events: seq<Event>, env: Env) returns (r: Result<seq<Gameplay>, LoadError>)
      requires && events != [] && events[0].StartGame?
               && SelectSeats(events[0].names, playerNamesSet, excludesSet) != []
               && env.loadGrp(events).Some?
               ==> Covered(Invisibles(env, events), events, WindowCount(events))
      ensures (events == [] || !events[0].StartGame?) ==> r == Failure(InvalidLog)
      ensures events != [] && events[0].StartGame? ==>
                var seats := SelectSeats(events[0].names, playerNamesSet, excludesSet);
                && (r.Failure? <==> seats != [] && env.loadGrp(events).None?)
                && (r.Failure? ==> r.error == GrpFailed)
                && (r.Success? ==>
                      && |r.value| == |seats|
                      && forall k :: 0 <= k < |seats| ==>
                           && fresh(r.value[k])
                           && r.value[k].Loaded(SettingFor(env, Invisibles(env, events), seats[k]), events))
    {
      var invisibles := Invisibles(env, events);
      if events == [] || !events[0].StartGame? {
        return Failure(InvalidLog);
      }
      var seats := SelectSeats(events[0].names, playerNamesSet, excludesSet);
      r := LoadSeats(events, env, invisibles, seats);
    }

    /** The per-seat scans of `load_events`, in seat order; the first failure ends the batch. */
    method LoadSeats(events: seq<Event>, env: Env, invisibles: Option<seq<Invisible>>, seats: seq<Seat>)
      returns (r: Result<seq<Gameplay>, LoadError>)
      requires seats != [] && env.loadGrp(events).Some? ==> Covered(invisibles, events, WindowCount(events))
      ensures r.Failure? <==> seats != [] && env.loadGrp(events).None?
      ensures r.Failure? ==> r.error == GrpFailed
      ensures r.Success? ==>
                && |r.value| == |seats|
                && forall k :: 0 <= k < |seats| ==>
                     && fresh(r.value[k])
                     && r.value[k].Loaded(SettingFor(env, invisibles, seats[k]), events)
    {
      var out: seq<Gameplay> := [];
      var k := 0;
      while k < |seats|
        invariant 0 <= k <= |seats|
        invariant |out| == k
        invariant k > 0 ==> env.loadGrp(events).Some?
        invariant forall j :: 0 <= j < k ==>
                    && fresh(out[j])
                    && out[j].Loaded(SettingFor(env, invisibles, seats[j]), events)
      {
        var one := Gameplay.LoadEventsByPlayer(this, events, seats[k], invisibles, env);
        if one.Failure? {
          return Failure(one.error);
        }
        out := out + [one.value];
        k := k + 1;
      }
      return Success(out);
    }
  }

  /** The mutable cursor of one scan (`LoaderContext`). */
  class LoaderContext {
    const config: GameplayLoader
    const invisibles: Option<seq<Invisible>>
    const env: Env

    var state: PlayerState
    var kyokuIdx: nat
    // only used in oracle mode
    var opponentStates: Opponents
    var fromRinshan: bool
    var yamaIdx: nat
    var rinshanIdx: nat

    /** The scan setting this context runs `player`'s scan under. */
    function SettingFor(player: Seat): Setting
    {
      config.SettingFor(env, invisibles, player)
    }

    /** The mutable fields as a value. */
    function Snapshot(): Ctx
      reads this
    {
      Ctx(state, opponentStates, Counters(kyokuIdx, fromRinshan, yamaIdx, rinshanIdx))
    }

    /** The wall positions and the round index as a value. */
    function Cursor(): Counters
      reads this
    {
      Counters(kyokuIdx, fromRinshan, yamaIdx, rinshanIdx)
    }

    /**
     * The bookkeeping of `extend_from_event_window` on the head event `cur`,
     * before the player's own tracker sees it: the round index, and in
     * oracle mode the wall counters and the opponents' trackers.
     */
    method Advance(cur: Event)
      modifies this`kyokuIdx, this`fromRinshan, this`yamaIdx, this`rinshanIdx, this`opponentStates
      ensures Snapshot() == Ctx(
        old(state),
        if invisibles.Some? then FeedAll(old(opponentStates), cur) else old(opponentStates),
        Bookkeep(old(Cursor()), cur, invisibles.Some?))
    {
      BookCounters(cur);
      if invisibles.Some? {
        FeedOpponents(cur);
      }
    }

    /** The round index, and in oracle mode the wall counters, after the head event `cur`. */
    method BookCounters(cur: Event)
      modifies this`kyokuIdx, this`fromRinshan, this`yamaIdx, this`rinshanIdx
      ensures Cursor() == Bookkeep(old(Cursor()), cur, invisibles.Some?)
    {
      if cur.EndKyoku? {
        kyokuIdx := kyokuIdx + 1;
      }
      if invisibles.Some? {
        match cur {
          case EndKyoku =>
            fromRinshan := false;
            yamaIdx := 0;
            rinshanIdx := 0;
          case Tsumo(_, _) =>
            if fromRinshan {
              rinshanIdx := rinshanIdx + 1;
              fromRinshan := false;
            } else {
              yamaIdx := yamaIdx + 1;
            }
          case Ankan(_, _) => fromRinshan := true;
          case Kakan(_, _, _) => fromRinshan := true;
          case Daiminkan(_, _, _, _) => fromRinshan := true;
          case _ =>
        }
      }
    }

    /** Oracle mode: each opponent's tracker is fed `cur`, in seat order. */
    method FeedOpponents(cur: Event)
      modifies this`opponentStates
      ensures opponentStates == FeedAll(old(opponentStates), cur)
    {
      ghost var opponents := opponentStates;
      var k := 0;
      while k < 3
        invariant 0 <= k <= 3
        invariant forall j :: 0 <= j < k ==> opponentStates[j] == Feed(opponents[j], cur)
        invariant forall j :: k <= j < 3 ==> opponentStates[j] == opponents[j]
      {
        opponentStates := opponentStates[k := Feed(opponentStates[k], cur)];
        k := k + 1;
      }
    }

    /** The context `load_events_by_player` starts with. */
    constructor (config: GameplayLoader, invisibles: Option<seq<Invisible>>, env: Env, playerId: Seat)
      ensures this.config == config && this.invisibles == invisibles && this.env == env
      ensures Snapshot() == InitialCtx(playerId)
    {
      this.config := config;
      this.invisibles := invisibles;
      this.env := env;
      state := NewPlayerState(playerId);
      kyokuIdx := 0;
      opponentStates := [
        NewPlayerState((playerId + 1) % 4),
        NewPlayerState((playerId + 2) % 4),
        NewPlayerState((playerId + 3) % 4)];
      fromRinshan := false;
      yamaIdx := 0;
      rinshanIdx := 0;
    }
  }

  /** One player's records of one game: the per-move columns and the per-game data. */
  class Gameplay {
    // one per move
    var obs: seq<Matrix>
    var invisibleObs: seq<Matrix>
    var actions: seq<int>
    var masks: seq<seq<bool>>
    var atKyoku: seq<U8>
    var dones: seq<bool>
    var applyGamma: seq<bool>
    var atTurns: seq<U8>
    var shantens: seq<I8>

    // one per game
    var grp: Grp
    var playerId: Seat
    var playerName: string

    /** The per-move columns except `dones`, as a value. */
    function Cols(): Columns
      reads this
    {
      Columns(obs, invisibleObs, actions, masks, atKyoku, applyGamma, atTurns, shantens)
    }

    /** The scan state spread over this buffer and the context. */
    function State(ctx: LoaderContext): ScanState
      reads this, ctx
    {
      ScanState(ctx.Snapshot(), playerName, Cols())
    }

    /** The outcome of a completed scan of `events` for `cfg.player`. */
    ghost predicate Loaded(cfg: Setting, events: seq<Event>)
      reads this
    {
      && Covered(cfg.invisibles, events, WindowCount(events))
      && cfg.env.loadGrp(events).Some?
      && var s := Scan(cfg, events);
      && Cols() == s.cols
      && playerName == s.playerName
      && playerId == cfg.player
      && grp == cfg.env.loadGrp(events).value
      && dones == Dones(atKyoku)
    }

    /** `Gameplay { grp, player_id, ..Default::default() }`. */
    constructor (grp: Grp, playerId: Seat)
      ensures Cols() == EmptyColumns && dones == []
      ensures this.grp == grp && this.playerId == playerId && playerName == ""
    {
      obs, invisibleObs, actions, masks := [], [], [], [];
      atKyoku, dones, applyGamma, atTurns, shantens := [], [], [], [], [];
      this.grp := grp;
      this.playerId := playerId;
      playerName := "";
    }

    /**
     * `add_entry`: appends one record to each per-move column, and to
     * `invisibleObs` exactly in oracle mode. The round column gets the
     * round index cast to `u8`; the discount flag is `code <= 37`.
     */
    method AddEntry(ctx: LoaderContext, atKanSelect: bool, code: nat)
      requires ctx.invisibles.Some? ==> ctx.kyokuIdx < |ctx.invisibles.value|
      modifies this`obs, this`invisibleObs, this`actions, this`masks, this`atKyoku,
               this`applyGamma, this`atTurns, this`shantens
      ensures Cols() == Push(old(Cols()), MakeEntry(ctx.SettingFor(playerId), ctx.Snapshot(), atKanSelect, code))
      ensures |actions| == old(|actions|) + 1 && actions[|actions| - 1] == code
      ensures |applyGamma| == old(|applyGamma|) + 1 && applyGamma[|applyGamma| - 1] == (code <= ReachLabel)
      ensures |atKyoku| == old(|atKyoku|) + 1 && atKyoku[|atKyoku| - 1] as int == ctx.kyokuIdx % 256
      ensures |obs| == old(|obs|) + 1 && |masks| == old(|masks|) + 1
      ensures |atTurns| == old(|atTurns|) + 1 && |shantens| == old(|shantens|) + 1
      ensures |invisibleObs| == old(|invisibleObs|) + (if ctx.invisibles.Some? then 1 else 0)
    {
      var (feature, mask) := ctx.env.encodeObs(ctx.state, ctx.config.version, atKanSelect);
      obs := obs + [feature];
      actions := actions + [code];
      masks := masks + [mask];
      atKyoku := atKyoku + [(ctx.kyokuIdx % 256) as U8];
      applyGamma := applyGamma + [code <= ReachLabel];
      atTurns := atTurns + [ctx.env.atTurn(ctx.state)];
      shantens := shantens + [ctx.env.shanten(ctx.state)];
      if ctx.invisibles.Some? {
        var hidden := ctx.env.encodeInvisible(
          ctx.invisibles.value[ctx.kyokuIdx], ctx.opponentStates, ctx.yamaIdx, ctx.rinshanIdx, ctx.config.version);
        invisibleObs := invisibleObs + [hidden];
      }
    }

    /**
     * `extend_from_event_window`: books the head event into the context,
     * feeds it to the player's tracker, and records the player's decision,
     * if any, exactly as `StepWindow` says.
     */
    method ExtendFromEventWindow(ctx: LoaderContext, wnd: Window)
      requires InBounds(ctx.SettingFor(playerId), NextCounters(ctx.SettingFor(playerId), State(ctx), wnd).kyokuIdx)
      modifies this`obs, this`invisibleObs, this`actions, this`masks, this`atKyoku,
               this`applyGamma, this`atTurns, this`shantens, this`playerName, ctx
      ensures State(ctx) == StepWindow(ctx.SettingFor(playerId), old(State(ctx)), wnd)
    {
      ghost var cfg := ctx.SettingFor(playerId);
      ghost var before := State(ctx);
      var cur := wnd[0];
      if cur.StartGame? {
        playerName := cur.names[playerId];
      }
      ctx.Advance(cur);
      ctx.state := Feed(ctx.state, cur);
      ghost var after := StepWindow(cfg, before, wnd);
      assert ctx.Snapshot() == after.ctx;
      Record(ctx, wnd);
    }

    /**
     * The recording half of `extend_from_event_window`, once the head event
     * has been booked and fed: nothing unless the tracker says the player
     * can act; otherwise the records of the label choice.
     */
    method Record(ctx: LoaderContext, wnd: Window)
      requires InBounds(ctx.SettingFor(playerId), ctx.kyokuIdx)
      modifies this`obs, this`invisibleObs, this`actions, this`masks, this`atKyoku,
               this`applyGamma, this`atTurns, this`shantens
      ensures Cols() == Emit(ctx.SettingFor(playerId), ctx.Snapshot(), old(Cols()),
                             WindowChoice(ctx.SettingFor(playerId), ctx.Snapshot(), wnd))
    {
      var cans := ctx.env.cans(ctx.state);
      if !cans.canAct {
        return;
      }
      var labelOpt, kanSelect := DecideLabel(ctx, wnd, cans);
      if labelOpt.Some? {
        AddEntry(ctx, false, labelOpt.value);
        if kanSelect.Some? {
          AddEntry(ctx, true, kanSelect.value);
        }
      }
    }

    /**
     * The label `match` of `extend_from_event_window`, for a player whose
     * tracker has just reported `cans`: the label, if any, and the tile of
     * the kan sub-decision, if any, are those `ChooseLabel` defines.
     *
     * `ChooseLabel` is the specification the scan functions and lemmas
     * reason with (they cannot call a method); this method is the code's
     * own form of the same match, assigning `kan_select` as a side result
     * and running the fallback arm's `Hora` search as a loop.
     */
    method DecideLabel(ctx: LoaderContext, wnd: Window, cans: Cans) returns (labelOpt: Option<nat>, kanSelect: Option<nat>)
      ensures ChooseLabel(ctx.env, playerId, wnd, cans, ctx.config.alwaysIncludeKanSelect,
                          ctx.env.kakanCandidates(ctx.state), ctx.env.ankanCandidates(ctx.state))
           == if labelOpt.Some? then Some(Choice(labelOpt.value, kanSelect)) else None
    {
      var next := NextEvent(wnd);
      kanSelect := None;
      if next.Dahai? {
        labelOpt := Some(next.pai as nat);
      } else if next.Reach? {
        labelOpt := Some(ReachLabel);
      } else if next.Chi? && next.actor == playerId {
        labelOpt := Some(ChiLabel(ctx.env.chiType(next.consumed, next.pai)));
      } else if next.Pon? && next.actor == playerId {
        labelOpt := Some(PonLabel);
      } else if next.Daiminkan? && next.actor == playerId {
        if ctx.config.alwaysIncludeKanSelect {
          kanSelect := Some(ctx.env.deaka(next.pai) as nat);
        }
        labelOpt := Some(KanLabel);
      } else if next.Kakan? {
        if ctx.config.alwaysIncludeKanSelect || ctx.env.kakanCandidates(ctx.state) > 1 {
          kanSelect := Some(ctx.env.deaka(next.pai) as nat);
        }
        labelOpt := Some(KanLabel);
      } else if next.Ankan? {
        if ctx.config.alwaysIncludeKanSelect || ctx.env.ankanCandidates(ctx.state) > 1 {
          kanSelect := Some(ctx.env.deaka(next.consumed[0]) as nat);
        }
        labelOpt := Some(KanLabel);
      } else if next.Ryukyoku? && cans.canRyukyoku {
        labelOpt := Some(RyukyokuLabel);
      } else {
        var ret: Option<nat> := None;
        var hasAnyRon := false;
        if wnd[1].Hora? {
          hasAnyRon := true;
          // whether the player is one of those who declared Hora
          var found := FindOwnHora(wnd, playerId);
          if found {
            ret := Some(RonLabel);
          }
        }
        if ret.None? {
          // chi declined without being cut off by another call, or
          // pon/daiminkan/ron declined without being cut off by a ron
          if (cans.canChi && next.Tsumo?)
             || ((cans.canPon || cans.canDaiminkan || cans.canRonAgari) && !hasAnyRon) {
            ret := Some(PassLabel);
          }
        }
        labelOpt := ret;
      }
    }

    /** One turn of the window loop: the window that starts at `events[i]`. */
    method ScanWindow(ctx: LoaderContext, events: seq<Event>, i: nat)
      requires i < WindowCount(events)
      requires Covered(ctx.invisibles, events, i) && Covered(ctx.invisibles, events, i + 1)
      requires State(ctx) == ScanUpTo(ctx.SettingFor(playerId), events, i)
      modifies this`obs, this`invisibleObs, this`actions, this`masks, this`atKyoku,
               this`applyGamma, this`atTurns, this`shantens, this`playerName, ctx
      ensures State(ctx) == ScanUpTo(ctx.SettingFor(playerId), events, i + 1)
    {
      ScanNext(ctx.SettingFor(playerId), events, i);
      ExtendFromEventWindow(ctx, WindowAt(events, i));
    }

    /** The window loop of `load_events_by_player`: every window of the log, in order. */
    method ScanWindows(ctx: LoaderContext, events: seq<Event>)
      requires Covered(ctx.invisibles, events, WindowCount(events))
      requires State(ctx) == ScanUpTo(ctx.SettingFor(playerId), events, 0)
      modifies this`obs, this`invisibleObs, this`actions, this`masks, this`atKyoku,
               this`applyGamma, this`atTurns, this`shantens, this`playerName, ctx
      ensures State(ctx) == Scan(ctx.SettingFor(playerId), events)
    {
      var i := 0;
      while i + 4 <= |events|
        invariant 0 <= i <= WindowCount(events)
        invariant Covered(ctx.invisibles, events, i)
        invariant State(ctx) == ScanUpTo(ctx.SettingFor(playerId), events, i)
        decreases |events| - i
      {
        CoveredPrefix(ctx.invisibles, events, i + 1, WindowCount(events));
        ScanWindow(ctx, events, i);
        i := i + 1;
      }
      assert i == WindowCount(events);
    }

    /**
     * `load_events_by_player`: fails when the round outcomes cannot be
     * extracted; otherwise runs every window of the log through
     * `ExtendFromEventWindow` and then computes `dones`.
     */
    static method LoadEventsByPlayer(
      config: GameplayLoader, events: seq<Event>, playerId: Seat,
      invisibles: Option<seq<Invisible>>, env: Env) returns (r: Result<Gameplay, LoadError>)
      requires env.loadGrp(events).Some? ==> Covered(invisibles, events, WindowCount(events))
      ensures r.Failure? <==> env.loadGrp(events).None?
      ensures r.Failure? ==> r.error == GrpFailed
      ensures r.Success? ==> fresh(r.value) && r.value.Loaded(config.SettingFor(env, invisibles, playerId), events)
    {
      var grp := env.loadGrp(events);
      if grp.None? {
        return Failure(GrpFailed);
      }
      var data := new Gameplay(grp.value, playerId);
      var ctx := new LoaderContext(config, invisibles, env, playerId);
      data.ScanWindows(ctx, events);
      data.dones := Dones(data.atKyoku);
      return Success(data);
    }

    method TakeObs() returns (taken: seq<Matrix>)
      modifies this`obs
      ensures taken == old(obs) && obs == []
    {
      taken := obs;
      obs := [];
    }

    method TakeInvisibleObs() returns (taken: seq<Matrix>)
      modifies this`invisibleObs
      ensures taken == old(invisibleObs) && invisibleObs == []
    {
      taken := invisibleObs;
      invisibleObs := [];
    }

    method TakeActions() returns (taken: seq<int>)
      modifies this`actions
      ensures taken == old(actions) && actions == []
    {
      taken := actions;
      actions := [];
    }

    method TakeMasks() returns (taken: seq<seq<bool>>)
      modifies this`masks
      ensures taken == old(masks) && masks == []
    {
      taken := masks;
      masks := [];
    }

    method TakeAtKyoku() returns (taken: seq<U8>)
      modifies this`atKyoku
      ensures taken == old(atKyoku) && atKyoku == []
    {
      taken := atKyoku;
      atKyoku := [];
    }

    method TakeDones() returns (taken: seq<bool>)
      modifies this`dones
      ensures taken == old(dones) && dones == []
    {
      taken := dones;
      dones := [];
    }

    method TakeApplyGamma() returns (taken: seq<bool>)
      modifies this`applyGamma
      ensures taken == old(applyGamma) && applyGamma == []
    {
      taken := applyGamma;
      applyGamma := [];
    }

    method TakeAtTurns() returns (taken: seq<U8>)
      modifies this`atTurns
      ensures taken == old(atTurns) && atTurns == []
    {
      taken := atTurns;
      atTurns := [];
    }

    method TakeShantens() returns (taken: seq<I8>)
      modifies this`shantens
      ensures taken == old(shantens) && shantens == []
    {
      taken := shantens;
      shantens := [];
    }

    method TakeGrp() returns (taken: Grp)
      modifies this`grp
      ensures taken == old(grp) && grp == DefaultGrp
    {
      taken := grp;
      grp := DefaultGrp;
    }

    /** `take_player_id` only reads: the seat stays. */
    method TakePlayerId() returns (id: Seat)
      ensures id == playerId
    {
      id := playerId;
    }
  }
}
