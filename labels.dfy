/**
 * Label derivation of the replay scanner: from a 4-event window and the
 * candidate set of the player's tracker to an action in the fixed 46-way
 * action space, plus the optional "kan select" sub-decision.
 */
module Labels {
  import opened Mjai
  import opened Wrappers
  import opened Tracker

  // The action space: 0..36 discard that tile, then these.
  const ReachLabel: nat := 37
  const ChiLowLabel: nat := 38
  const ChiMidLabel: nat := 39
  const ChiHighLabel: nat := 40
  const PonLabel: nat := 41
  const KanLabel: nat := 42
  const RonLabel: nat := 43
  const RyukyokuLabel: nat := 44
  const PassLabel: nat := 45
  const ActionSpace: nat := 46

  /** Purely informational events the lookahead steps over. */
  predicate IsInterstitial(e: Event)
  {
    e.ReachAccepted? || e.Dora?
  }

  /**
   * The lookahead event `next`: the event after the window head, stepping
   * over one reach acceptance or dora reveal.
   */
  function NextEvent(w: Window): (next: Event)
    ensures IsInterstitial(w[1]) ==> next == w[2]
    ensures !IsInterstitial(w[1]) ==> next == w[1]
    ensures !IsInterstitial(w[1]) || !IsInterstitial(w[2]) ==> !IsInterstitial(next)
  {
    if IsInterstitial(w[1]) then w[2] else w[1]
  }

  /** The primary label and, for a kan, the optional tile of the sub-decision. */
  datatype Choice = Choice(code: nat, kanSelect: Option<nat>)

  /** The tile a kan names: `pai` of a daiminkan or kakan, the first consumed tile of an ankan. */
  function KanTile(e: Event): Tile
    requires IsKan(e)
  {
    if e.Ankan? then e.consumed[0] else e.pai
  }

  /**
   * The match arms that decide from the lookahead event alone. Discard,
   * reach, kakan and ankan do not look at the actor; chi, pon and
   * daiminkan must be the player's own.
   */
  predicate DirectArm(next: Event, player: Seat, cans: Cans)
  {
    || next.Dahai? || next.Reach? || next.Kakan? || next.Ankan?
    || ((next.Chi? || next.Pon? || next.Daiminkan?) && next.actor == player)
    || (next.Ryukyoku? && cans.canRyukyoku)
  }

  /** Some `Hora` by `player` comes before any `EndKyoku` in `evs`. */
  predicate OwnHoraBeforeEnd(evs: seq<Event>, player: Seat)
  {
    exists j :: 0 <= j < |evs| && IsHoraBy(evs[j], player) && forall k :: 0 <= k < j ==> !evs[k].EndKyoku?
  }

  /** The chi label for a classifier answer. */
  function ChiLabel(t: ChiType): (code: nat)
    ensures ChiLowLabel <= code <= ChiHighLabel
  {
    match t
    case Low => ChiLowLabel
    case Mid => ChiMidLabel
    case High => ChiHighLabel
  }

  /**
   * The fallback arm: a win by call when the player is among those who
   * declare `Hora` right after the head, else a pass when the player could
   * chi and the next event is a draw, or could pon, daiminkan or ron and
   * nobody won by call.
   */
  function Fallback(player: Seat, w: Window, cans: Cans): Option<Choice>
  {
    var hasAnyRon := w[1].Hora?;
    if hasAnyRon && OwnHoraBeforeEnd(w[1..], player) then
      Some(Choice(RonLabel, None))
    else if (cans.canChi && NextEvent(w).Tsumo?)
         || ((cans.canPon || cans.canDaiminkan || cans.canRonAgari) && !hasAnyRon) then
      Some(Choice(PassLabel, None))
    else
      None
  }

  /**
   * The label `match` of `extend_from_event_window`, for a player whose
   * tracker reported `cans` and `kakanCandidates`/`ankanCandidates` kan
   * candidates after the head event.
   */
  function ChooseLabel(
    env: Env, player: Seat, w: Window, cans: Cans,
    alwaysKanSelect: bool, kakanCandidates: nat, ankanCandidates: nat): (r: Option<Choice>)
    ensures r.Some? ==> r.value.code < ActionSpace
    ensures r.Some? ==> (r.value.code <= ReachLabel <==> NextEvent(w).Dahai? || NextEvent(w).Reach?)
    ensures r.Some? && r.value.kanSelect.Some? ==>
      && r.value.code == KanLabel
      && IsKan(NextEvent(w))
      && r.value.kanSelect.value == env.deaka(KanTile(NextEvent(w))) as nat
    ensures DirectArm(NextEvent(w), player, cans) ==> r.Some? && r.value.code !in {RonLabel, PassLabel}
  {
    var next := NextEvent(w);
    if next.Dahai? then
      Some(Choice(next.pai as nat, None))
    else if next.Reach? then
      Some(Choice(ReachLabel, None))
    else if next.Chi? && next.actor == player then
      Some(Choice(ChiLabel(env.chiType(next.consumed, next.pai)), None))
    else if next.Pon? && next.actor == player then
      Some(Choice(PonLabel, None))
    else if next.Daiminkan? && next.actor == player then
      Some(Choice(KanLabel, if alwaysKanSelect then Some(env.deaka(next.pai) as nat) else None))
    else if next.Kakan? then
      Some(Choice(KanLabel, if alwaysKanSelect || kakanCandidates > 1 then Some(env.deaka(next.pai) as nat) else None))
    else if next.Ankan? then
      Some(Choice(KanLabel, if alwaysKanSelect || ankanCandidates > 1 then Some(env.deaka(next.consumed[0]) as nat) else None))
    else if next.Ryukyoku? && cans.canRyukyoku then
      Some(Choice(RyukyokuLabel, None))
    else
      Fallback(player, w, cans)
  }

  /**
   * The loop of the fallback arm: walks `wnd[1..]`, stops at `EndKyoku`,
   * and reports whether a `Hora` by `player` came first.
   */
  method FindOwnHora(wnd: Window, player: Seat) returns (found: bool)
    ensures found <==> OwnHoraBeforeEnd(wnd[1..], player)
  {
    found := false;
    var j := 1;
    while j < 4
      invariant 1 <= j <= 4
      invariant !found
      invariant forall k :: 1 <= k < j ==> !wnd[k].EndKyoku? && !IsHoraBy(wnd[k], player)
    {
      if wnd[j].EndKyoku? {
        break;
      }
      if IsHoraBy(wnd[j], player) {
        found := true;
        assert forall k :: 0 <= k < j - 1 ==> !wnd[1..][k].EndKyoku?;
        assert IsHoraBy(wnd[1..][j - 1], player);
        break;
      }
      j := j + 1;
    }
  }

  /**
   * The kan sub-decision is emitted exactly for: the player's own
   * daiminkan when the flag is set, and any kakan or ankan when the flag is
   * set or there was more than one candidate; it carries the de-reddened tile.
   */
  lemma KanSelectRule(
    env: Env, player: Seat, w: Window, cans: Cans,
    alwaysKanSelect: bool, kakanCandidates: nat, ankanCandidates: nat)
    ensures var r := ChooseLabel(env, player, w, cans, alwaysKanSelect, kakanCandidates, ankanCandidates);
            var next := NextEvent(w);
            && ((r.Some? && r.value.kanSelect.Some?) <==>
                || (next.Daiminkan? && next.actor == player && alwaysKanSelect)
                || (next.Kakan? && (alwaysKanSelect || kakanCandidates > 1))
                || (next.Ankan? && (alwaysKanSelect || ankanCandidates > 1)))
            && (r.Some? && r.value.kanSelect.Some? ==> r.value.kanSelect.value == env.deaka(KanTile(next)) as nat)
  {
  }

  /**
   * Discard, reach, kakan and ankan in the lookahead give their label
   * whoever the actor is.
   */
  lemma ActorUncheckedArms(
    env: Env, player: Seat, w: Window, cans: Cans,
    alwaysKanSelect: bool, kakanCandidates: nat, ankanCandidates: nat)
    ensures var r := ChooseLabel(env, player, w, cans, alwaysKanSelect, kakanCandidates, ankanCandidates);
            var next := NextEvent(w);
            && (next.Dahai? ==> r.Some? && r.value == Choice(next.pai as nat, None))
            && (next.Reach? ==> r.Some? && r.value == Choice(ReachLabel, None))
            && (next.Kakan? || next.Ankan? ==> r.Some? && r.value.code == KanLabel)
  {
  }

  /**
   * Win by call (43) is chosen exactly when the event right after the head
   * is a `Hora` and the player's own `Hora` appears in `w[1..]` before any
   * `EndKyoku`.
   */
  lemma RonLabelRule(
    env: Env, player: Seat, w: Window, cans: Cans,
    alwaysKanSelect: bool, kakanCandidates: nat, ankanCandidates: nat)
    ensures var r := ChooseLabel(env, player, w, cans, alwaysKanSelect, kakanCandidates, ankanCandidates);
            (r.Some? && r.value.code == RonLabel) <==> w[1].Hora? && OwnHoraBeforeEnd(w[1..], player)
  {
  }

  /**
   * Pass (45) is chosen exactly when no direct arm and no own win apply, and
   * either the player could chi and the lookahead is a draw, or it could
   * pon, daiminkan or ron and the event after the head is not a `Hora`.
   */
  lemma PassLabelRule(
    env: Env, player: Seat, w: Window, cans: Cans,
    alwaysKanSelect: bool, kakanCandidates: nat, ankanCandidates: nat)
    ensures var r := ChooseLabel(env, player, w, cans, alwaysKanSelect, kakanCandidates, ankanCandidates);
            (r.Some? && r.value.code == PassLabel) <==>
              && !DirectArm(NextEvent(w), player, cans)
              && !(w[1].Hora? && OwnHoraBeforeEnd(w[1..], player))
              && ((cans.canChi && NextEvent(w).Tsumo?)
                  || ((cans.canPon || cans.canDaiminkan || cans.canRonAgari) && !w[1].Hora?))
  {
  }

  /** No label at all exactly when neither a direct arm nor the fallback applies. */
  lemma NoLabelRule(
    env: Env, player: Seat, w: Window, cans: Cans,
    alwaysKanSelect: bool, kakanCandidates: nat, ankanCandidates: nat)
    ensures ChooseLabel(env, player, w, cans, alwaysKanSelect, kakanCandidates, ankanCandidates).None? <==>
              && !DirectArm(NextEvent(w), player, cans)
              && Fallback(player, w, cans).None?
  {
  }
}
