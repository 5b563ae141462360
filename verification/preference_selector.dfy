/** The roll winner's preference picker (components/draft/PreferenceSelector.tsx):
    the four cards, which of them are selected or disabled, when a click reaches
    `onSelect`, the header line, and the label describing what the loser gets. */
module PreferenceSelector {
  import opened Types
  import MatchLogic

  /** The `selectedPreference` prop: omitted (undefined), null, or a preference. */
  datatype Selection = Omitted | Cleared | Chosen(pref: RollPreference)

  /** The cards in display order. */
  const Cards: seq<RollPreference> := [FirstPick, SecondPick, FirstBan, SecondBan]

  /** A card's label. */
  function Label(p: RollPreference): string
  {
    match p
    case FirstPick => "First Pick"
    case SecondPick => "Second Pick"
    case FirstBan => "First Ban"
    case SecondBan => "Second Ban"
  }

  /** The other preference on the same axis: what the loser is left with. */
  function Counterpart(p: RollPreference): (q: RollPreference)
    ensures IsPickAxis(q) == IsPickAxis(p)
    ensures IsFirst(q) != IsFirst(p)
  {
    match p
    case FirstPick => SecondPick
    case SecondPick => FirstPick
    case FirstBan => SecondBan
    case SecondBan => FirstBan
  }

  /** `getLoserPreference`: the label shown for the other side's matching choice. */
  function LoserLabel(winnerPref: RollPreference): (r: string)
    // The loser gets the other turn of the same axis.
    ensures r == Label(Counterpart(winnerPref))
  {
    match winnerPref
    case FirstPick => "Second Pick"
    case SecondPick => "First Pick"
    case FirstBan => "Second Ban"
    case SecondBan => "First Ban"
  }

  /** The four labels are distinct, so a label names one preference. */
  lemma LabelInjective(p: RollPreference, q: RollPreference)
    ensures Label(p) == Label(q) <==> p == q
  {
    if p != q {
      assert Label(p)[|Label(p)| - 1] != Label(q)[|Label(q)| - 1] || Label(p)[0] != Label(q)[0];
    }
  }

  /** The loser label keeps the axis, flips first and second, and is injective. */
  lemma LoserLabelFlips(p: RollPreference, q: RollPreference)
    ensures IsPickAxis(Counterpart(p)) == IsPickAxis(p) && IsFirst(Counterpart(p)) != IsFirst(p)
    ensures LoserLabel(p) == LoserLabel(q) <==> p == q
    ensures LoserLabel(p) != Label(p)
  {
    LabelInjective(Counterpart(p), Counterpart(q));
    LabelInjective(Counterpart(p), p);
  }

  /** The loser label tells the truth: had the loser chosen the counterpart
      preference, the transition would give both sides the same turns. */
  lemma LoserLabelAgreesWithTurns(p: RollPreference, winner: Side)
    ensures MatchLogic.OrderFor(Counterpart(p), Opposite(winner)) == MatchLogic.OrderFor(p, winner)
  {
  }

  /** `isSelected`: the card's value equals the prop. */
  predicate IsSelected(sel: Selection, p: RollPreference)
  {
    sel == Chosen(p)
  }

  /** A card is disabled when the viewer may not choose, or when the prop is not
      null and names another card; an omitted prop is not null. */
  predicate IsDisabled(canSelect: bool, sel: Selection, p: RollPreference)
  {
    !canSelect || (sel != Cleared && !IsSelected(sel, p))
  }

  /** A click goes through when the viewer may choose and nothing is chosen yet;
      an omitted prop and null both count as nothing chosen. */
  predicate ClickFires(canSelect: bool, sel: Selection)
  {
    canSelect && !sel.Chosen?
  }

  /** How one card is drawn. */
  datatype CardState = CardState(value: RollPreference, selected: bool, disabled: bool)

  /** All four cards, in display order. */
  function CardStates(canSelect: bool, sel: Selection): (r: seq<CardState>)
    ensures |r| == 4
    ensures forall i :: 0 <= i < 4 ==> r[i].value == Cards[i]
    // At most one card is marked selected: the one holding the chosen value.
    ensures forall i, j :: 0 <= i < j < 4 ==> !(r[i].selected && r[j].selected)
    ensures forall i :: 0 <= i < 4 ==> (r[i].selected <==> sel == Chosen(r[i].value))
    ensures sel.Chosen? ==> exists i :: 0 <= i < 4 && r[i].selected
    // Without the prop, or without the right to choose, every card is disabled.
    ensures sel == Omitted || !canSelect ==> forall i :: 0 <= i < 4 ==> r[i].disabled
    // With the prop null and the right to choose, every card is enabled.
    ensures canSelect && sel == Cleared ==> forall i :: 0 <= i < 4 ==> !r[i].disabled
    // Once chosen, only the chosen card can stay enabled.
    ensures sel.Chosen? ==> forall i :: 0 <= i < 4 ==> (!r[i].disabled <==> canSelect && r[i].selected)
  {
    var r := seq(4, i requires 0 <= i < 4 =>
      CardState(Cards[i], IsSelected(sel, Cards[i]), IsDisabled(canSelect, sel, Cards[i])));
    assert sel.Chosen? ==> r[Position(sel.pref)].selected;
    r
  }

  /** Where a preference's card sits. */
  function Position(p: RollPreference): (i: nat)
    ensures i < 4 && Cards[i] == p
  {
    match p
    case FirstPick => 0
    case SecondPick => 1
    case FirstBan => 2
    case SecondBan => 3
  }

  /** Clicking card `p`: a disabled button takes no click, an enabled one runs
      the guard.  The result is the preference passed to `onSelect`, if any. */
  function Click(canSelect: bool, sel: Selection, p: RollPreference): (r: Option<RollPreference>)
    // A preference is sent exactly when the winner may choose and nothing is chosen yet
    // (the prop null); it is the clicked card's value.
    ensures r.Some? <==> canSelect && sel == Cleared
    ensures r.Some? ==> r.value == p
  {
    if !IsDisabled(canSelect, sel, p) && ClickFires(canSelect, sel) then Some(p) else None
  }

  /** The header line under the winner's name. */
  function Header(canSelect: bool, sel: Selection): (r: string)
    // The prompt shows exactly when the winner may choose.
    ensures r == "Choose your preference:" <==> canSelect
    // Otherwise a chosen preference is named by its label; undefined and null both wait.
    ensures !canSelect && sel.Chosen? ==> r == "Selected: " + Label(sel.pref)
    ensures r == "Waiting for selection..." <==> !canSelect && !sel.Chosen?
  {
    if canSelect then "Choose your preference:"
    else if sel.Chosen? then "Selected: " + Label(sel.pref)
    else "Waiting for selection..."
  }

  /** A watcher's header names the chosen preference unambiguously. */
  lemma HeaderNamesChoice(sel1: Selection, sel2: Selection)
    requires sel1.Chosen? && sel2.Chosen?
    ensures Header(false, sel1) == Header(false, sel2) <==> sel1 == sel2
  {
    var pre := "Selected: ";
    if Header(false, sel1) == Header(false, sel2) {
      assert Header(false, sel1)[|pre|..] == Label(sel1.pref);
      assert Header(false, sel2)[|pre|..] == Label(sel2.pref);
      LabelInjective(sel1.pref, sel2.pref);
    }
  }
}
