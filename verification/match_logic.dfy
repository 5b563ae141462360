/** The server-side transition of a match (lib/match-logic.ts): after a ledger
    entry has been inserted, `processMatchAction` reads the match row, the
    ledger and the stage and writes the next status, the team to act and the
    turn deadline.  Storage is abstracted away: the rows read are parameters
    and the write is returned as an `Outcome`. */
module MatchLogic {
  import opened Types

  /** Seconds a turn lasts (`TIMER_DURATION`); the stage's own timer is not read. */
  const TimerDuration: int := 60

  /** The columns of a match row that the transition reads or writes. */
  datatype MatchRow = MatchRow(
    status: MatchStatus,
    currentTeam: Option<Team>,
    rollWinner: Option<Team>,
    redRoll: Option<int>,
    blueRoll: Option<int>,
    timerEndsAt: Option<int>,
    preference: Option<RollPreference>)

  /** The columns of a stage row that the transition reads. */
  datatype StageRow = StageRow(bestOf: int, numBans: int)

  /** What one call writes.  `NoUpdate`: returned before any write.  `TieReset`:
      both rolls cleared, back to rolling, roll entries deleted, nothing more
      written.  `Update`: the final write; `rollWinner` is `Some(w)` only when
      the column is written, `storedPreference` only when the preference is. */
  datatype Outcome =
    | NoUpdate
    | TieReset
    | Update(status: MatchStatus, currentTeam: Option<Team>, timerEndsAt: Option<int>,
             rollWinner: Option<Option<Team>>, storedPreference: Option<RollPreference>)

  /** A roll column as the transition reads it: a missing roll counts as 0. */
  function RollValue(v: Option<int>): int
  {
    match v
    case Some(x) => x
    case None => 0
  }

  /** Which side bans first and which side picks first after `actor` chose `pref`. */
  datatype TurnOrder = TurnOrder(firstBan: Side, firstPick: Side)

  function OrderFor(pref: RollPreference, actor: Side): (o: TurnOrder)
    ensures o.firstBan == actor <==> (pref == FirstBan || pref == SecondPick)
    ensures o.firstPick == actor <==> (pref == FirstPick || pref == SecondBan)
    ensures o.firstBan != o.firstPick
  {
    match pref
    case FirstBan => TurnOrder(actor, Opposite(actor))
    case SecondBan => TurnOrder(Opposite(actor), actor)
    case FirstPick => TurnOrder(Opposite(actor), actor)
    case SecondPick => TurnOrder(actor, Opposite(actor))
  }

  /** The final write; the roll winner column is included only when it changed. */
  function Write(row: MatchRow, status: MatchStatus, team: Option<Team>, timer: Option<int>,
                 winner: Option<Team>, pref: Option<RollPreference>): Outcome
  {
    Update(status, team, timer, if winner != row.rollWinner then Some(winner) else None, pref)
  }

  /** How many roll, ban and pick entries the ledger holds: the lengths of the
      three `filter`ed lists, the only facts about the ledger the transition reads. */
  datatype Tally = Tally(rolls: nat, bans: nat, picks: nat)

  function TallyOf(ledger: seq<ActionType>): Tally
  {
    Tally(Count(ledger, Roll), Count(ledger, Ban), Count(ledger, Pick))
  }

  /** The tally after one more entry of kind `a`. */
  function Add(t: Tally, a: ActionType): Tally
  {
    match a
    case Roll => t.(rolls := t.rolls + 1)
    case Ban => t.(bans := t.bans + 1)
    case Pick => t.(picks := t.picks + 1)
    case Preference => t
  }

  /** Appending an entry to the ledger adds it to the tally. */
  lemma TallyAppend(ledger: seq<ActionType>, a: ActionType)
    ensures TallyOf(ledger + [a]) == Add(TallyOf(ledger), a)
  {
    CountSnoc(ledger, a, Roll);
    CountSnoc(ledger, a, Ban);
    CountSnoc(ledger, a, Pick);
  }

  /** Deleting the roll entries (a tie) zeroes the roll count only. */
  lemma TallyRemoveRolls(ledger: seq<ActionType>)
    ensures TallyOf(RemoveRolls(ledger)) == TallyOf(ledger).(rolls := 0)
  {
  }

  /** Roll branch, given the number of roll entries on the ledger. */
  function OnRoll(row: MatchRow, rolls: nat, now: int): (o: Outcome)
    // Other than exactly two rolls: status and team kept, the timer cleared.
    ensures rolls != 2 ==> o == Update(row.status, row.currentTeam, None, None, None)
    // Two equal rolls (a missing roll reading as 0): a tie.
    ensures o.TieReset? <==> rolls == 2 && RollValue(row.redRoll) == RollValue(row.blueRoll)
    // Two unequal rolls: the higher roller wins and is to choose a preference.
    ensures rolls == 2 && RollValue(row.redRoll) != RollValue(row.blueRoll) ==>
      && o.Update?
      && o.status == PreferenceSelection
      && o.timerEndsAt == Some(now + TimerDuration)
      && o.storedPreference.None?
      && (o.currentTeam == Some(Red) || o.currentTeam == Some(Blue))
      && (o.currentTeam == Some(Red) <==> RollValue(row.redRoll) > RollValue(row.blueRoll))
      && (o.rollWinner.None? <==> row.rollWinner == o.currentTeam)
      && (o.rollWinner.Some? ==> o.rollWinner.value == o.currentTeam)
  {
    if rolls == 2 then
      var red := RollValue(row.redRoll);
      var blue := RollValue(row.blueRoll);
      var timer := Some(now + TimerDuration);
      if red > blue then Write(row, PreferenceSelection, Some(Red), timer, Some(Red), None)
      else if blue > red then Write(row, PreferenceSelection, Some(Blue), timer, Some(Blue), None)
      else TieReset
    else
      Write(row, row.status, row.currentTeam, None, row.rollWinner, None)
  }

  /** Preference branch: `actor` chose `pref` (no preference: nothing written). */
  function OnPreference(row: MatchRow, st: StageRow, actor: Side, pref: Option<RollPreference>, now: int): (o: Outcome)
    ensures o.NoUpdate? <==> pref.None?
    ensures pref.Some? ==>
      && o.Update?
      && o.timerEndsAt == Some(now + TimerDuration)
      && o.rollWinner.None?
      && o.storedPreference == pref
      // With bans the first banner opens, without bans the first picker.
      && (st.numBans > 0 ==>
            o.status == Banning
            && (o.currentTeam == Some(actor) <==> pref.value == FirstBan || pref.value == SecondPick)
            && o.currentTeam == Some(OrderFor(pref.value, actor).firstBan))
      && (st.numBans <= 0 ==>
            o.status == Picking
            && (o.currentTeam == Some(actor) <==> pref.value == FirstPick || pref.value == SecondBan)
            && o.currentTeam == Some(OrderFor(pref.value, actor).firstPick))
  {
    if pref.None? then NoUpdate
    else
      var order := OrderFor(pref.value, actor);
      var timer := Some(now + TimerDuration);
      if st.numBans > 0 then Write(row, Banning, Some(order.firstBan), timer, row.rollWinner, pref)
      else Write(row, Picking, Some(order.firstPick), timer, row.rollWinner, pref)
  }

  /** Ban branch, given the number of ban entries (the new one included). */
  function OnBan(row: MatchRow, st: StageRow, bans: nat, actor: Side, now: int): (o: Outcome)
    ensures o.Update? && o.timerEndsAt == Some(now + TimerDuration)
    ensures o.rollWinner.None? && o.storedPreference.None?
    // The ban completing 2 * num_bans opens picking for the roll winner.
    ensures bans >= 2 * st.numBans ==> o.status == Picking && o.currentTeam == row.rollWinner
    // Any earlier ban passes the turn to the other side.
    ensures bans < 2 * st.numBans ==> o.status == row.status && o.currentTeam == Some(Opposite(actor))
  {
    var timer := Some(now + TimerDuration);
    if bans >= st.numBans * 2 then Write(row, Picking, row.rollWinner, timer, row.rollWinner, None)
    else Write(row, row.status, Some(Opposite(actor)), timer, row.rollWinner, None)
  }

  /** Pick branch, given the number of pick entries (the new one included). */
  function OnPick(row: MatchRow, st: StageRow, picks: nat, actor: Side, now: int): (o: Outcome)
    ensures o.Update? && o.rollWinner.None? && o.storedPreference.None?
    // The pick reaching best_of - 1 (the tiebreaker is not picked) completes the draft.
    ensures picks >= st.bestOf - 1 ==>
      o.status == Completed && o.currentTeam.None? && o.timerEndsAt.None?
    // Any earlier pick passes the turn to the other side.
    ensures picks < st.bestOf - 1 ==>
      o.status == row.status && o.currentTeam == Some(Opposite(actor))
      && o.timerEndsAt == Some(now + TimerDuration)
  {
    if picks >= st.bestOf - 1 then Write(row, Completed, None, None, row.rollWinner, None)
    else Write(row, row.status, Some(Opposite(actor)), Some(now + TimerDuration), row.rollWinner, None)
  }

  /** `processMatchAction` for the just-inserted action `action` by `team`;
      `tally` counts the match's ledger entries, the new one included. */
  function Step(matchRow: Option<MatchRow>, stage: Option<StageRow>, tally: Tally,
                action: ActionType, team: Side, pref: Option<RollPreference>, now: int): (o: Outcome)
    // Nothing is written exactly for missing rows and a preference action without a preference.
    ensures o.NoUpdate? <==> matchRow.None? || stage.None? || (action == Preference && pref.None?)
    // A tie is the only way to reset, and only on the second roll.
    ensures o.TieReset? <==>
      matchRow.Some? && stage.Some? && action == Roll && tally.rolls == 2
      && RollValue(matchRow.value.redRoll) == RollValue(matchRow.value.blueRoll)
    // Every armed timer is one turn from now.
    ensures o.Update? && o.timerEndsAt.Some? ==> o.timerEndsAt.value == now + TimerDuration
    // The roll winner column is written only by a decisive roll, and only when it changes.
    ensures o.Update? && o.rollWinner.Some? ==>
      action == Roll && o.rollWinner.value != matchRow.value.rollWinner
    // The preference is stored only by a preference action, and it is the given one.
    ensures o.Update? && o.storedPreference.Some? <==> o.Update? && action == Preference
    ensures o.Update? && action == Preference ==> o.storedPreference == pref
  {
    match matchRow
    case None => NoUpdate
    case Some(row) =>
      match stage
      case None => NoUpdate
      case Some(st) =>
        match action
        case Roll => OnRoll(row, tally.rolls, now)
        case Preference => OnPreference(row, st, team, pref, now)
        case Ban => OnBan(row, st, tally.bans, team, now)
        case Pick => OnPick(row, st, tally.picks, team, now)
  }

  /** The match row after the outcome's writes. */
  function Apply(row: MatchRow, o: Outcome): (r: MatchRow)
    ensures o.NoUpdate? ==> r == row
    ensures o.TieReset? ==>
      r == row.(redRoll := None, blueRoll := None, status := Rolling, currentTeam := None, timerEndsAt := None)
    ensures o.Update? ==>
      && r.status == o.status && r.currentTeam == o.currentTeam && r.timerEndsAt == o.timerEndsAt
      && r.redRoll == row.redRoll && r.blueRoll == row.blueRoll
      && r.rollWinner == (if o.rollWinner.Some? then o.rollWinner.value else row.rollWinner)
      && r.preference == (if o.storedPreference.Some? then o.storedPreference else row.preference)
  {
    match o
    case NoUpdate => row
    case TieReset =>
      row.(redRoll := None, blueRoll := None, status := Rolling, currentTeam := None, timerEndsAt := None)
    case Update(status, team, timer, winner, pref) =>
      var row1 := if pref.Some? then row.(preference := pref) else row;
      var row2 := if winner.Some? then row1.(rollWinner := winner.value) else row1;
      row2.(status := status, currentTeam := team, timerEndsAt := timer)
  }

  /** The ledger after the outcome: a tie deletes every roll entry. */
  function RemoveRolls(ledger: seq<ActionType>): (r: seq<ActionType>)
    ensures Count(r, Roll) == 0
    ensures Count(r, Ban) == Count(ledger, Ban)
    ensures Count(r, Pick) == Count(ledger, Pick)
    ensures Count(r, Preference) == Count(ledger, Preference)
  {
    if ledger == [] then []
    else
      var init := ledger[..|ledger| - 1];
      var last := ledger[|ledger| - 1];
      var kept := RemoveRolls(init);
      if last == Roll then kept
      else
        CountSnoc(kept, last, Roll);
        CountSnoc(kept, last, Ban);
        CountSnoc(kept, last, Pick);
        CountSnoc(kept, last, Preference);
        kept + [last]
  }

  /** `startMatch`: the match row after the match is started (or restarted). */
  function StartMatch(row: MatchRow): (r: MatchRow)
    ensures r.status == Rolling && r.currentTeam.None? && r.timerEndsAt.None?
    ensures r.rollWinner == row.rollWinner && r.preference == row.preference
    ensures r.redRoll == row.redRoll && r.blueRoll == row.blueRoll
  {
    row.(status := Rolling, currentTeam := None, timerEndsAt := None)
  }
}
