/** Shared vocabulary of the draft: the sides, the match phases, the ledger
    action kinds, the four roll-winner preferences and the mod pools
    (types/index.ts). */
module Types {

  /** Optional value, standing for a nullable column or an omitted prop. */
  datatype Option<+T> = None | Some(value: T)

  /** `Team` of the match row: the two sides plus the tiebreaker marker. */
  datatype Team = Red | Blue | Tiebreaker

  /** A team that can act: "red" or "blue". */
  type Side = t: Team | t != Tiebreaker witness Red

  datatype MatchStatus =
    | Waiting
    | Rolling
    | PreferenceSelection
    | Banning
    | Picking
    | Completed

  datatype ActionType = Ban | Pick | Roll | Preference

  datatype RollPreference = FirstPick | SecondPick | FirstBan | SecondBan

  /** The mod pool a beatmap belongs to; "TB" is the tiebreaker. */
  datatype ModPool = NM | HD | HR | FM | DT | TB

  /** The name a mod pool is stored and displayed as. */
  function ModPoolValue(m: ModPool): string
  {
    match m
    case NM => "NM"
    case HD => "HD"
    case HR => "HR"
    case FM => "FM"
    case DT => "DT"
    case TB => "TB"
  }

  /** The side that is not `s` ("red" <-> "blue"). */
  function Opposite(s: Side): (r: Side)
    ensures r != s
  {
    if s == Red then Blue else Red
  }

  /** The string value a team is stored and exported as. */
  function TeamValue(t: Team): string
  {
    match t
    case Red => "red"
    case Blue => "blue"
    case Tiebreaker => "tiebreaker"
  }

  /** The string value a preference is stored and exported as. */
  function PreferenceValue(p: RollPreference): string
  {
    match p
    case FirstPick => "first_pick"
    case SecondPick => "second_pick"
    case FirstBan => "first_ban"
    case SecondBan => "second_ban"
  }

  /** Pick-axis preferences (as opposed to ban-axis ones). */
  predicate IsPickAxis(p: RollPreference)
  {
    p == FirstPick || p == SecondPick
  }

  /** Preferences that take the first turn of their axis. */
  predicate IsFirst(p: RollPreference)
  {
    p == FirstPick || p == FirstBan
  }

  /** Number of entries of kind `k` in a ledger of action kinds. */
  function Count(ledger: seq<ActionType>, k: ActionType): (n: nat)
    ensures n <= |ledger|
  {
    if ledger == [] then 0
    else Count(ledger[..|ledger| - 1], k) + (if ledger[|ledger| - 1] == k then 1 else 0)
  }

  lemma {:induction false} CountAppend(a: seq<ActionType>, b: seq<ActionType>, k: ActionType)
    ensures Count(a + b, k) == Count(a, k) + Count(b, k)
    decreases |b|
  {
    if b == [] {
      assert a + b == a;
    } else {
      var b' := b[..|b| - 1];
      assert (a + b)[..|a + b| - 1] == a + b';
      CountAppend(a, b', k);
    }
  }

  /** Appending one entry adds one to its own kind's count and nothing to the others. */
  lemma CountSnoc(ledger: seq<ActionType>, a: ActionType, k: ActionType)
    ensures Count(ledger + [a], k) == Count(ledger, k) + (if a == k then 1 else 0)
  {
    assert (ledger + [a])[..|ledger + [a]| - 1] == ledger;
  }
}
