/** A draft played action by action: each submitted action is first appended
    to the ledger and then `processMatchAction` runs on the new ledger, as the
    action route does (app/api/matches/[id]/action/route.ts).  The route passes
    no preference to `processMatchAction`; `Submit` takes the preference as a
    parameter so that the preference branch can be followed, and
    `RoutePreferenceIsInert` states what the route itself does with one.
    These lemmas follow a match through its phases by repeating `MatchLogic.Step`. */
module MatchSession {
  import opened Types
  import opened MatchLogic

  /** The stored state of one match: its row and the tally of its ledger
      (`MatchLogic.TallyAppend` and `MatchLogic.TallyRemoveRolls` relate the
      tally to the ledger itself). */
  datatype Snapshot = Snapshot(row: MatchRow, tally: Tally)

  /** Insert the entry, run the transition, apply its writes. */
  function Submit(s: Snapshot, st: StageRow, action: ActionType, team: Side,
                  pref: Option<RollPreference>, now: int): (r: Snapshot)
    // Only the second roll of a cycle can delete entries; every other submission is counted.
    ensures action != Roll ==> r.tally == Add(s.tally, action)
    ensures s.tally.rolls != 1 ==> r.tally == Add(s.tally, action)
    ensures r.tally.bans == s.tally.bans + (if action == Ban then 1 else 0)
    ensures r.tally.picks == s.tally.picks + (if action == Pick then 1 else 0)
  {
    var tally := Add(s.tally, action);
    var o := Step(Some(s.row), Some(st), tally, action, team, pref, now);
    Snapshot(Apply(s.row, o), if o.TieReset? then tally.(rolls := 0) else tally)
  }

  /** A captain's roll: the page stores the rolled value in the side's column and
      then submits a roll action. */
  function RollBy(s: Snapshot, st: StageRow, side: Side, value: int, now: int): Snapshot
  {
    var row := if side == Red then s.row.(redRoll := Some(value)) else s.row.(blueRoll := Some(value));
    Submit(Snapshot(row, s.tally), st, Roll, side, None, now)
  }

  /** Through the action route, which forwards no preference, a preference
      action changes neither the match row nor the counts it reads. */
  lemma RoutePreferenceIsInert(s: Snapshot, st: StageRow, team: Side, now: int)
    ensures Submit(s, st, Preference, team, None, now) == s
  {
  }

  /** The side whose turn it is (red when no side holds the turn). */
  function TurnOf(s: Snapshot): Side
  {
    if s.row.currentTeam == Some(Blue) then Blue else Red
  }

  /** `n` actions of kind `kind`, each submitted by the side holding the turn. */
  function PlayTurns(s: Snapshot, st: StageRow, kind: ActionType, n: nat, now: int): Snapshot
    decreases n
  {
    if n == 0 then s
    else
      var p := PlayTurns(s, st, kind, n - 1, now);
      Submit(p, st, kind, TurnOf(p), None, now)
  }

  /** The side holding the turn after `j` alternations starting from `t`. */
  function Alternate(t: Side, j: nat): Side
  {
    if j % 2 == 0 then t else Opposite(t)
  }

  /** One ban: counted, and the turn passes or picking opens. */
  lemma SubmitBan(s: Snapshot, st: StageRow, team: Side, now: int)
    ensures var r := Submit(s, st, Ban, team, None, now);
      && r.tally.bans == s.tally.bans + 1
      && r.tally.picks == s.tally.picks
      && r.row.rollWinner == s.row.rollWinner
      && r.row.timerEndsAt == Some(now + TimerDuration)
      && (s.tally.bans + 1 >= 2 * st.numBans ==>
            r.row.status == Picking && r.row.currentTeam == s.row.rollWinner)
      && (s.tally.bans + 1 < 2 * st.numBans ==>
            r.row.status == s.row.status && r.row.currentTeam == Some(Opposite(team)))
  {
  }

  /** One pick: counted, and the turn passes or the draft completes. */
  lemma SubmitPick(s: Snapshot, st: StageRow, team: Side, now: int)
    ensures var r := Submit(s, st, Pick, team, None, now);
      && r.tally.picks == s.tally.picks + 1
      && (s.tally.picks + 1 >= st.bestOf - 1 ==>
            r.row.status == Completed && r.row.currentTeam.None? && r.row.timerEndsAt.None?)
      && (s.tally.picks + 1 < st.bestOf - 1 ==>
            r.row.status == s.row.status && r.row.currentTeam == Some(Opposite(team))
            && r.row.timerEndsAt == Some(now + TimerDuration))
  {
  }

  /** One preference: stored; the first banner or first picker is to act. */
  lemma SubmitPreference(s: Snapshot, st: StageRow, team: Side, p: RollPreference, now: int)
    ensures var r := Submit(s, st, Preference, team, Some(p), now);
      && r.tally.bans == s.tally.bans
      && r.tally.picks == s.tally.picks
      && r.row.preference == Some(p)
      && r.row.rollWinner == s.row.rollWinner
      && (st.numBans > 0 ==>
            r.row.status == Banning && r.row.currentTeam == Some(OrderFor(p, team).firstBan))
      && (st.numBans <= 0 ==>
            r.row.status == Picking && r.row.currentTeam == Some(OrderFor(p, team).firstPick))
  {
  }

  /** Two rolls, by either captain first: the higher roller wins and chooses;
      equal rolls clear both rolls and every roll entry, so the match is back to
      rolling with no roll on record. */
  lemma RollRound(s: Snapshot, st: StageRow, first: Side, a: int, b: int, now: int)
    requires s.row.status == Rolling && s.row.currentTeam.None?
    requires s.tally.rolls == 0
    ensures var s1 := RollBy(s, st, first, a, now);
      && s1.row.status == Rolling && s1.row.currentTeam.None? && s1.row.timerEndsAt.None?
      && s1.tally.rolls == 1
    ensures var s2 := RollBy(RollBy(s, st, first, a, now), st, Opposite(first), b, now);
      && (a != b ==>
            && s2.row.status == PreferenceSelection
            && s2.row.currentTeam == s2.row.rollWinner
            && s2.row.rollWinner == Some(if a > b then first else Opposite(first))
            && s2.row.timerEndsAt == Some(now + TimerDuration))
      && (a == b ==>
            && s2.row.status == Rolling && s2.row.currentTeam.None? && s2.row.timerEndsAt.None?
            && s2.row.redRoll.None? && s2.row.blueRoll.None?
            && s2.tally.rolls == 0
            && s2.tally.bans == s.tally.bans
            && s2.tally.picks == s.tally.picks)
  {
  }

  /** While bans remain, every ban passes the turn to the other side. */
  lemma {:induction false} BanPhase(s: Snapshot, st: StageRow, t: Side, j: nat, now: int)
    requires s.row.status == Banning && s.row.currentTeam == Some(t)
    requires s.tally.bans + j < 2 * st.numBans
    ensures var r := PlayTurns(s, st, Ban, j, now);
      && r.row.status == Banning
      && r.row.currentTeam == Some(Alternate(t, j))
      && r.row.rollWinner == s.row.rollWinner
      && r.tally.bans == s.tally.bans + j
      && r.tally.picks == s.tally.picks
  {
    if j > 0 {
      BanPhase(s, st, t, j - 1, now);
      var p := PlayTurns(s, st, Ban, j - 1, now);
      SubmitBan(p, st, TurnOf(p), now);
    }
  }

  /** The ban that completes 2 * num_bans opens picking for the roll winner. */
  lemma {:induction false} BanPhaseEnds(s: Snapshot, st: StageRow, t: Side, now: int)
    requires s.row.status == Banning && s.row.currentTeam == Some(t)
    requires s.tally.bans < 2 * st.numBans
    ensures var r := PlayTurns(s, st, Ban, 2 * st.numBans - s.tally.bans, now);
      && r.row.status == Picking
      && r.row.currentTeam == s.row.rollWinner
      && r.row.rollWinner == s.row.rollWinner
      && r.row.timerEndsAt == Some(now + TimerDuration)
      && r.tally.bans == 2 * st.numBans
      && r.tally.picks == s.tally.picks
  {
    var n := 2 * st.numBans - s.tally.bans;
    BanPhase(s, st, t, n - 1, now);
    var p := PlayTurns(s, st, Ban, n - 1, now);
    SubmitBan(p, st, TurnOf(p), now);
  }

  /** While picks remain, every pick passes the turn to the other side. */
  lemma {:induction false} PickPhase(s: Snapshot, st: StageRow, t: Side, j: nat, now: int)
    requires s.row.status == Picking && s.row.currentTeam == Some(t)
    requires s.tally.picks + j < st.bestOf - 1
    ensures var r := PlayTurns(s, st, Pick, j, now);
      && r.row.status == Picking
      && r.row.currentTeam == Some(Alternate(t, j))
      && r.tally.picks == s.tally.picks + j
  {
    if j > 0 {
      PickPhase(s, st, t, j - 1, now);
      var p := PlayTurns(s, st, Pick, j - 1, now);
      SubmitPick(p, st, TurnOf(p), now);
    }
  }

  /** The pick that reaches best_of - 1 picks completes the draft and stops the clock. */
  lemma {:induction false} PickPhaseEnds(s: Snapshot, st: StageRow, t: Side, now: int)
    requires s.row.status == Picking && s.row.currentTeam == Some(t)
    requires s.tally.picks < st.bestOf - 1
    ensures var r := PlayTurns(s, st, Pick, st.bestOf - 1 - s.tally.picks, now);
      && r.row.status == Completed
      && r.row.currentTeam.None?
      && r.row.timerEndsAt.None?
      && r.tally.picks == st.bestOf - 1
  {
    var n := st.bestOf - 1 - s.tally.picks;
    PickPhase(s, st, t, n - 1, now);
    var p := PlayTurns(s, st, Pick, n - 1, now);
    SubmitPick(p, st, TurnOf(p), now);
  }

  /** A whole draft with bans: after the roll winner's preference the first
      banner opens, 2 * num_bans bans alternate, and picking then opens with
      the roll winner whatever the preference was; best_of - 1 picks complete it. */
  lemma {:induction false} FullDraft(s: Snapshot, st: StageRow, w: Side, p: RollPreference, now: int)
    requires s.row.status == PreferenceSelection && s.row.currentTeam == Some(w)
    requires s.row.rollWinner == Some(w)
    requires s.tally.bans == 0 && s.tally.picks == 0
    requires st.numBans >= 1 && st.bestOf >= 2
    ensures var s1 := Submit(s, st, Preference, w, Some(p), now);
      && s1.row.status == Banning
      && s1.row.currentTeam == Some(OrderFor(p, w).firstBan)
      && s1.row.preference == Some(p)
    ensures var s2 := PlayTurns(Submit(s, st, Preference, w, Some(p), now), st, Ban, 2 * st.numBans, now);
      && s2.row.status == Picking
      && s2.row.currentTeam == Some(w)
    ensures var s3 := PlayTurns(PlayTurns(Submit(s, st, Preference, w, Some(p), now), st, Ban, 2 * st.numBans, now),
                                st, Pick, st.bestOf - 1, now);
      && s3.row.status == Completed
      && s3.row.currentTeam.None?
      && s3.row.timerEndsAt.None?
  {
    var s1 := Submit(s, st, Preference, w, Some(p), now);
    SubmitPreference(s, st, w, p, now);
    BanPhaseEnds(s1, st, OrderFor(p, w).firstBan, now);
    var s2 := PlayTurns(s1, st, Ban, 2 * st.numBans, now);
    PickPhaseEnds(s2, st, w, now);
  }

  /** Without bans the preference opens picking directly with the first picker. */
  lemma {:induction false} DraftWithoutBans(s: Snapshot, st: StageRow, w: Side, p: RollPreference, now: int)
    requires s.row.status == PreferenceSelection && s.row.currentTeam == Some(w)
    requires s.tally.picks == 0
    requires st.numBans <= 0 && st.bestOf >= 2
    ensures var s1 := Submit(s, st, Preference, w, Some(p), now);
      && s1.row.status == Picking
      && s1.row.currentTeam == Some(OrderFor(p, w).firstPick)
    ensures var s2 := PlayTurns(Submit(s, st, Preference, w, Some(p), now), st, Pick, st.bestOf - 1, now);
      && s2.row.status == Completed
      && s2.row.currentTeam.None?
  {
    var s1 := Submit(s, st, Preference, w, Some(p), now);
    SubmitPreference(s, st, w, p, now);
    PickPhaseEnds(s1, st, OrderFor(p, w).firstPick, now);
  }

  /** Starting a match twice is the same as starting it once. */
  lemma StartMatchIdempotent(row: MatchRow)
    ensures StartMatch(StartMatch(row)) == StartMatch(row)
  {
  }
}
