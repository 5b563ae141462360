/** What the draft board's map card shows (components/draft/EnhancedMapCard.tsx):
    the tiebreaker and lock flags, the colour of the picking team, which
    overlay covers the card and which interaction button it offers.  Styling,
    animation and the beatmap's text fields are presentation and left out. */
module EnhancedMapCard {
  import opened Types

  datatype CardStatus = Available | Banned | Picked | Locked

  datatype Mode = BanMode | PickMode

  /** The props that decide what the card shows; an omitted prop is `None`,
      and the two callbacks are reduced to whether they were passed. */
  datatype Props = Props(
    modPool: ModPool,
    status: CardStatus,
    pickedByTeam: Option<Side>,
    teamRedColor: Option<string>,
    teamBlueColor: Option<string>,
    canInteract: Option<bool>,
    interactionMode: Option<Mode>,
    hasOnBan: bool,
    hasOnPick: bool)

  const DefaultRed: string := "#EF4444"
  const DefaultBlue: string := "#3B82F6"

  /** A defaulted prop: the default replaces only an omitted value. */
  function OrDefault<T>(o: Option<T>, d: T): (r: T)
    ensures o.Some? ==> r == o.value
    ensures o.None? ==> r == d
  {
    if o.Some? then o.value else d
  }

  predicate IsTiebreaker(p: Props)
  {
    p.modPool == TB
  }

  /** `isLocked`: locked by status, or a tiebreaker map. */
  predicate IsLocked(p: Props)
  {
    p.status == Locked || IsTiebreaker(p)
  }

  /** A tiebreaker map is locked whatever its status. */
  lemma TiebreakerAlwaysLocked(p: Props)
    requires p.modPool == TB
    ensures IsLocked(p)
  {
  }

  /** `teamColor`: the picking side's colour, with the defaults for omitted colours. */
  function TeamColor(p: Props): (r: Option<string>)
    ensures r.None? <==> p.pickedByTeam.None?
    ensures p.pickedByTeam == Some(Red) ==> r == Some(OrDefault(p.teamRedColor, DefaultRed))
    ensures p.pickedByTeam == Some(Blue) ==> r == Some(OrDefault(p.teamBlueColor, DefaultBlue))
  {
    match p.pickedByTeam
    case None => None
    case Some(t) => if t == Red then Some(OrDefault(p.teamRedColor, DefaultRed))
                    else Some(OrDefault(p.teamBlueColor, DefaultBlue))
  }

  /** With both colours omitted, red picks are drawn in #EF4444 and blue ones in #3B82F6. */
  lemma DefaultTeamColors(p: Props)
    requires p.teamRedColor.None? && p.teamBlueColor.None?
    ensures p.pickedByTeam == Some(Red) ==> TeamColor(p) == Some("#EF4444")
    ensures p.pickedByTeam == Some(Blue) ==> TeamColor(p) == Some("#3B82F6")
    ensures TeamColor(p).Some? ==> TeamColor(p).value != ""
  {
  }

  /** A string is truthy when it is not empty. */
  predicate Truthy(o: Option<string>)
  {
    o.Some? && o.value != ""
  }

  /** The three overlays: banned, picked in the team's colour, tiebreaker lock. */
  datatype Overlays = Overlays(banned: bool, picked: bool, tiebreakerLock: bool)

  function ShownOverlays(p: Props): (r: Overlays)
    ensures r.banned <==> p.status == Banned
    // The picked overlay needs a picking side whose colour is not empty.
    ensures r.picked <==> p.status == Picked && Truthy(TeamColor(p))
    // The lock overlay shows only for tiebreaker maps that are neither banned nor picked.
    ensures r.tiebreakerLock <==> p.modPool == TB && p.status != Banned && p.status != Picked
    // At most one overlay covers the card.
    ensures !(r.banned && r.picked) && !(r.banned && r.tiebreakerLock) && !(r.picked && r.tiebreakerLock)
  {
    var banned := p.status == Banned;
    var picked := p.status == Picked;
    Overlays(banned, picked && Truthy(TeamColor(p)),
             IsLocked(p) && IsTiebreaker(p) && !banned && !picked)
  }

  /** A card picked by a side with default colours always shows the picked overlay. */
  lemma PickedOverlayWithDefaults(p: Props)
    requires p.status == Picked && p.pickedByTeam.Some?
    requires p.teamRedColor.None? && p.teamBlueColor.None?
    ensures ShownOverlays(p).picked
  {
    DefaultTeamColors(p);
  }

  datatype Button = BanButton | PickButton

  /** The interaction buttons rendered, in order. */
  function Buttons(p: Props): (r: seq<Button>)
    // A ban button needs interaction allowed, the ban mode and an `onBan`; likewise for picks.
    ensures BanButton in r <==> OrDefault(p.canInteract, false) && p.interactionMode == Some(BanMode) && p.hasOnBan
    ensures PickButton in r <==> OrDefault(p.canInteract, false) && p.interactionMode == Some(PickMode) && p.hasOnPick
    // At most one button renders, and none when interaction is omitted.
    ensures |r| <= 1
    ensures p.canInteract.None? ==> r == []
  {
    var canInteract := OrDefault(p.canInteract, false);
    (if canInteract && p.interactionMode == Some(BanMode) && p.hasOnBan then [BanButton] else [])
    + (if canInteract && p.interactionMode == Some(PickMode) && p.hasOnPick then [PickButton] else [])
  }
}

/** The plain beatmap card of the draft screen (components/BeatmapCard.tsx):
    the default status, the click guard and the two status overlays. */
module BeatmapCard {
  import opened Types

  datatype Status = Available | Banned | Picked

  /** An omitted status counts as available. */
  function StatusOf(status: Option<Status>): (r: Status)
    ensures status.Some? ==> r == status.value
    ensures status.None? ==> r == Available
  {
    if status.Some? then status.value else Available
  }

  /** The click handler attached to the card: none while the card is disabled. */
  function AttachedClick<H>(onClick: Option<H>, disabled: Option<bool>): (r: Option<H>)
    // A disabled card takes no click; otherwise the handler is passed through.
    ensures disabled == Some(true) ==> r.None?
    ensures disabled != Some(true) ==> r == onClick
    ensures r.Some? <==> onClick.Some? && disabled != Some(true)
  {
    if disabled == Some(true) then None else onClick
  }

  datatype Overlays = Overlays(banned: bool, picked: bool)

  function ShownOverlays(status: Option<Status>): (r: Overlays)
    ensures r.banned <==> status == Some(Banned)
    ensures r.picked <==> status == Some(Picked)
    // Never both; an omitted status shows neither.
    ensures !(r.banned && r.picked)
    ensures status.None? ==> !r.banned && !r.picked
  {
    var s := StatusOf(status);
    Overlays(s == Banned, s == Picked)
  }
}
