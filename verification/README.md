# omc-draft in Dafny

A model of the draft core of omc-draft, an osu! tournament map-draft web application, with proofs about it.

Two captains, red and blue, go through a match in phases:
- They roll dice, and the higher roll wins.
- The roll winner chooses a preference: first or second pick, or first or second ban.
- Each side then bans maps from the stage's map pool, taking turns.
- The sides then pick maps, taking turns, until best_of - 1 maps are picked. The tiebreaker map is never picked.

The model covers:

- **MatchLogic** (`match_logic.dfy`): the server-side transition `processMatchAction`, run after every ledger entry, and `startMatch`.
  - The rows it reads are parameters.
  - The writes it would make are returned as an `Outcome`: nothing written, a tie reset, or the final update.
- **MatchSession** (`match_session.dfy`): submitting actions one after another, the way the action route does. Lemmas follow a match through its roll, preference, ban and pick phases.
- **StagePattern** (`stage_pattern.dfy`): `generateDraftPattern`, the draft pattern a new stage is stored with.
- **MapPool** (`map_pool.dfy`): the map-pool editor of the stage form and the filtering of the beatmap ids it submits.
- **PreferenceSelector** (`preference_selector.dfy`): the roll winner's preference cards, the header line, and the label for what the loser gets.
- **ExportModal** (`export_modal.dfy`): the text summary and the JSON record of a finished draft.
- **AudioManager** (`audio_manager.dfy`): the sound cues as a state machine over the component's refs. These are the ten-second warning, the countdown beeps and the phase-change chord.
- **EnhancedMapCard** and **BeatmapCard** (`map_cards.dfy`): what the two map cards show.
- **Types** and **Text** (`types.dfy`, `text.dfy`): the shared vocabulary, and the string helpers.
  - The helpers are decimal printing, `padStart`, ASCII `toUpperCase` and `replace` with a one-character pattern.
  - Text also holds `formatTime`, whose round trip is proved.

How JavaScript values are modelled:
- A nullable column or an omitted prop is an `Option`.
- Truthiness tests are written out. An empty string is falsy, and `roll || 0` reads a missing roll as 0.
- `seconds % 60` takes the sign of `seconds`, as in JavaScript.
- The wall clock, the random roll and the date rendering are parameters.

## Model

| member | source | states |
|---|---|---|
| Types.Opposite | lib/match-logic.ts:150 | The other side of red is blue and of blue is red; never the same side. |
| MatchLogic.OrderFor | lib/match-logic.ts:99-116 | The chooser bans first exactly for first_ban or second_pick and picks first exactly for first_pick or second_ban; the first banner and the first picker are always different sides. |
| MatchLogic.TallyAppend | lib/match-logic.ts:45-47 | Appending a ledger entry adds one to the count of its own kind (roll, ban or pick) and leaves the other counts alone. |
| MatchLogic.TallyRemoveRolls | lib/match-logic.ts:79-83 | Deleting the roll entries zeroes the roll count and keeps the ban and pick counts. |
| MatchLogic.RemoveRolls | lib/match-logic.ts:79-83 | After the deletion no roll entry is left, and bans, picks and preferences are all kept. |
| MatchLogic.OnRoll | lib/match-logic.ts:55-93 | Unless there are exactly two rolls, status and team are kept and the timer cleared. Two equal rolls, with a missing roll read as 0, reset the match. Otherwise the higher roller becomes the team to act in preference selection, with the timer at now + 60. The roll winner column is written only when it changes. |
| MatchLogic.OnPreference | lib/match-logic.ts:96-137 | A missing preference writes nothing. Otherwise the preference is stored and the timer armed. With bans, banning opens with the first banner; without bans, picking opens with the first picker. |
| MatchLogic.OnBan | lib/match-logic.ts:140-153 | When the ban count reaches 2 * num_bans, picking opens for the roll winner. Any earlier ban hands the turn to the other side. The timer is always re-armed. |
| MatchLogic.OnPick | lib/match-logic.ts:156-167 | When the pick count reaches best_of - 1, the match completes with no team to act and no timer. Any earlier pick hands the turn to the other side and re-arms the timer. |
| MatchLogic.Step | lib/match-logic.ts:6-189 | Nothing is written exactly when the match or stage is missing, or when a preference action comes without a preference. A tie reset happens exactly on a second roll with equal values. Every armed timer is now + 60. The roll winner is written only by a roll, and only when it changes. The preference is stored only by a preference action. |
| MatchLogic.Apply | lib/match-logic.ts:169-188 | The row after the writes. A tie clears both rolls, the team and the timer and goes back to rolling. An update sets status, team and timer; it changes the roll winner and the preference only when it writes them. |
| MatchLogic.StartMatch | lib/match-logic.ts:191-201 | Starting sets rolling, no team to act and no timer, and keeps every other column. |
| MatchSession.Submit | lib/match-logic.ts:45-47 | The action route inserts the entry and then runs the transition (app/api/matches/[id]/action/route.ts, lines 35-57), so the counts the transition reads include the new action. Only a second roll can delete ledger entries. |
| MatchSession.RoutePreferenceIsInert | lib/match-logic.ts:96-97 | The action route forwards no preference (app/api/matches/[id]/action/route.ts, line 57), so a preference posted through it returns before any write: neither the match row nor the counts change. |
| MatchSession.SubmitBan | lib/match-logic.ts:140-153 | One ban is counted and keeps the roll winner. Either the turn passes to the other side or picking opens for the roll winner. |
| MatchSession.SubmitPick | lib/match-logic.ts:156-167 | One pick is counted. Either the turn passes with a fresh timer, or the draft completes with the clock stopped. |
| MatchSession.SubmitPreference | lib/match-logic.ts:96-137 | The preference is stored, the counts are unchanged, and the first banner or first picker is to act. |
| MatchSession.RollRound | lib/match-logic.ts:55-93 | Each roll is stored in the roller's column before the roll action is posted (app/draft/[id]/page.tsx, lines 189-202). Either captain may roll first. The first roll leaves the match rolling with no team to act. After the other captain's roll: unequal rolls give preference selection to the higher roller, whether that captain rolled first or second; equal rolls clear both rolls and every roll entry and return to rolling. |
| MatchSession.BanPhase | lib/match-logic.ts:140-153 | While bans remain, after j bans the turn has alternated j times from the first banner, and the match is still banning. |
| MatchSession.BanPhaseEnds | lib/match-logic.ts:141-147 | The ban that completes 2 * num_bans opens picking for the roll winner with a fresh timer. |
| MatchSession.PickPhase | lib/match-logic.ts:156-167 | While picks remain, after j picks the turn has alternated j times and the match is still picking. |
| MatchSession.PickPhaseEnds | lib/match-logic.ts:157-161 | The pick that reaches best_of - 1 completes the draft with no team to act and no timer. |
| MatchSession.FullDraft | lib/match-logic.ts:96-167 | A whole draft with bans: the preference opens banning with the first banner. After 2 * num_bans bans, picking opens with the roll winner, whatever the preference. After best_of - 1 picks the match is completed. |
| MatchSession.DraftWithoutBans | lib/match-logic.ts:118-167 | Without bans the preference opens picking with the first picker, and best_of - 1 picks complete the match. |
| MatchSession.StartMatchIdempotent | lib/match-logic.ts:191-201 | Starting a match twice is the same as starting it once. |
| StagePattern.BanTokens | app/admin/stages/page.tsx:25-38 | There are 2 * num_bans ban tokens of slots 1 and 2: 1,2 for one ban each, 1,2,2,1 for two, alternating from slot 1 otherwise. |
| StagePattern.FirstPassPicks | app/admin/stages/page.tsx:45-104 | A Snake stage gets best_of picks in the order 1,2,2,1 repeated. Any other type gets best_of + 2 picks alternating from slot 1. The second Snake loop adds nothing. |
| StagePattern.FinalPicks | app/admin/stages/page.tsx:106-116 | The final block has best_of + 5 picks in the pattern type's order, from slot 1. |
| StagePattern.GenerateDraftPattern | app/admin/stages/page.tsx:13-119 | The pattern is the bans, then the first-pass picks, then the final block. Exactly the first 2 * num_bans tokens are bans, and every token belongs to slot 1 or slot 2. Each section is in its own order. |
| StagePattern.SnakeOrderRestarts | app/admin/stages/page.tsx:45-118 | With two bans each and best of 1, a Snake pattern gives slot 1 two consecutive picks (tokens 4 and 5) where the snake order gives slot 2 the second pick. |
| StagePattern.PlayedPicksAgree | app/admin/stages/page.tsx:45-118 | For every pattern type, ban count and best-of, the pattern as written and the intended one put their bans in the same positions, and agree token for token on the first best_of - 1 picks, which are all the picks a draft makes. |
| StagePattern.IntendedDraftPattern | app/admin/stages/page.tsx:106-118 | Bans followed by the final block alone, so every pick continues one unbroken order from the first pick. |
| MapPool.ChangeSlot | app/admin/stages/page.tsx:139-144 | Only slot `index` of the chosen pool changes, to the new value; an index outside the list changes nothing. |
| MapPool.AddSlot | app/admin/stages/page.tsx:146-151 | The chosen pool gains one empty slot at its end; every other pool is unchanged. |
| MapPool.RemoveSlot | app/admin/stages/page.tsx:153-158 | Slot `index` of the chosen pool is deleted and the rest keep their order; an index outside the list changes nothing. |
| MapPool.BlankIffAllSpace | app/admin/stages/page.tsx:169 | A slot is blank after trimming exactly when all its characters are whitespace. |
| MapPool.Keep | app/admin/stages/page.tsx:169-170 | A blank slot contributes nothing; any other contributes the parse of its trimmed text. |
| MapPool.ParseIdsExact | app/admin/stages/page.tsx:168-170 | The ids submitted for a pool are exactly the parses of its trimmed non-blank slots: one per such slot, in slot order. The positions used are increasing, name only non-blank slots, and include every non-blank slot. |
| MapPool.ParseIdsAppend | app/admin/stages/page.tsx:168-170 | Filtering and parsing distribute over concatenation, so kept ids stay in slot order. |
| MapPool.ParseIdsEmpty | app/admin/stages/page.tsx:168-171 | Nothing is kept exactly when every slot is blank. |
| MapPool.SubmittedPools | app/admin/stages/page.tsx:166-174 | The submitted pools are exactly those with a non-empty filtered list, each mapped to that list. |
| MapPool.SubmittedPoolsKeys | app/admin/stages/page.tsx:166-174 | A pool is submitted exactly when at least one of its slots is not blank. |
| Text.ParseNatToString | components/BeatmapCard.tsx:22 | Reading back the decimal digits printed for a natural number gives the number. |
| Text.PadStart | components/BeatmapCard.tsx:22 | The result is as long as the larger of width and the length of s, ends with s, and is filled in front with the fill character. |
| Text.Upper | components/draft/ExportModal.tsx:38 | Same length; each lower-case ASCII letter becomes its capital and every other character is kept. |
| Text.ReplaceFirst | components/draft/ExportModal.tsx:38 | Only the first occurrence of the character is replaced; without one the string is unchanged. |
| Text.FormatTime | components/BeatmapCard.tsx:19-23 | For a non-negative duration: the minutes digits, a colon, then two digits. |
| Text.FormatTimeRoundTrip | components/draft/EnhancedMapCard.tsx:30-34 | For every non-negative duration: the seconds field is 0..59, minutes * 60 + seconds is the duration, and reading the m:ss text back gives the duration. |
| PreferenceSelector.Counterpart | components/draft/PreferenceSelector.tsx:64-72 | The loser's preference keeps the pick/ban axis and flips first and second. |
| PreferenceSelector.LoserLabel | components/draft/PreferenceSelector.tsx:64-72 | The loser label is the card label of the counterpart preference. |
| PreferenceSelector.LabelInjective | components/draft/PreferenceSelector.tsx:24-51 | The four card labels are distinct. |
| PreferenceSelector.LoserLabelFlips | components/draft/PreferenceSelector.tsx:64-72 | The loser mapping keeps the axis, flips first and second, is injective, and never repeats the winner's own label. |
| PreferenceSelector.LoserLabelAgreesWithTurns | lib/match-logic.ts:99-116 | Had the loser chosen the counterpart preference, the transition would give both sides the same first ban and first pick. |
| PreferenceSelector.CardStates | components/draft/PreferenceSelector.tsx:96-99 | At most one card is selected, the one equal to the chosen value. An omitted prop or no right to choose disables every card. With a null prop and the right to choose, all cards are enabled. Once a value is chosen, only the chosen card can be enabled. |
| PreferenceSelector.Click | components/draft/PreferenceSelector.tsx:99-105 | A click reaches `onSelect` exactly when the winner may choose and the prop is null, and it sends the clicked card's value. |
| PreferenceSelector.Header | components/draft/PreferenceSelector.tsx:86-90 | The prompt shows exactly when the winner may choose. Otherwise the header names the chosen card's label, or waits when nothing is chosen. |
| PreferenceSelector.HeaderNamesChoice | components/draft/PreferenceSelector.tsx:88-89 | Two watchers see the same "Selected:" header exactly when the same preference was chosen. |
| ExportModal.TournamentTitle | components/draft/ExportModal.tsx:29 | The title is never empty. The default is used exactly when the name is missing, empty or equal to the default. |
| ExportModal.Listed | components/draft/ExportModal.tsx:26-27 | An action is listed exactly when it has the kind and a non-empty beatmap id. |
| ExportModal.ListedAppend | components/draft/ExportModal.tsx:26-27 | The filter keeps ledger order: it distributes over concatenation. |
| ExportModal.Lookup | components/draft/ExportModal.tsx:44 | A found beatmap belongs to the stage and carries the id. Nothing is found exactly when the id is null or names no beatmap. |
| ExportModal.LookupFirst | components/draft/ExportModal.tsx:44 | With duplicate ids, the first beatmap carrying the id is returned. |
| ExportModal.FindTiebreaker | components/draft/ExportModal.tsx:59 | A tiebreaker is found exactly when some beatmap is in the TB pool, and it is the first such beatmap of the pool: no earlier beatmap is in the TB pool. |
| ExportModal.Line | components/draft/ExportModal.tsx:44-47 | An action emits one numbered line with its team and beatmap when its beatmap is found, and none otherwise. |
| ExportModal.Entries | components/draft/ExportModal.tsx:43-48 | There are at most as many lines as listed actions, each numbered within 1..the list's length. |
| ExportModal.EntriesIncrease | components/draft/ExportModal.tsx:43-57 | Line numbers strictly increase, so no number repeats. |
| ExportModal.EntryFor | components/draft/ExportModal.tsx:52-57 | Number i + 1 appears exactly when the i-th listed action's beatmap is found, on the line for that action's team and beatmap. An unmatched action still uses up its number. |
| ExportModal.PreferenceDisplayWords | components/draft/ExportModal.tsx:37-39 | The preference line shows the capitals of the preference's card label (FIRST PICK, ...). |
| ExportModal.Summarize | components/draft/ExportModal.tsx:25-62 | The winner is red only for a red roll winner. The preference appears exactly when set. Ban and pick numbers lie within their filtered lists. The ban and pick sections are exactly the numbered entries of the bans and picks filtered from the action list, in order. A tiebreaker line appears exactly when the stage has a TB map; it shows the first TB map of the pool, numbered after every listed pick. |
| ExportModal.Lines | components/draft/ExportModal.tsx:29-62 | The summary has 13 fixed lines, one more with a preference, one per emitted ban and pick line, and one for a tiebreaker. |
| ExportModal.SummaryText | components/draft/ExportModal.tsx:25-64 | The summary text opens with the "=== " title banner, and every line, the last included, ends in a newline. |
| ExportModal.SummaryTextLines | components/draft/ExportModal.tsx:25-64 | When the team names, date, tournament name and beatmap titles are single lines, cutting the summary text at its newlines gives back exactly the summary's lines, in order. |
| ExportModal.SplitRender | components/draft/ExportModal.tsx:29-64 | Lines without newlines of their own are recovered from the rendered text by cutting at each newline. |
| ExportModal.ExportActions | components/draft/ExportModal.tsx:84-106 | One record per action, in order, with its order, type, team and timestamp. The beatmap is null exactly when the id is falsy or names no beatmap; otherwise it is that beatmap's export. |
| ExportModal.ExportJson | components/draft/ExportModal.tsx:67-107 | The JSON record carries the defaulted tournament title, the rolls, winner and preference as stored, and one record per action. |
| AudioManager.Init | components/draft/AudioManager.tsx:101-103 | The refs start from the first props, with no warning played. |
| AudioManager.TimerTick | components/draft/AudioManager.tsx:141-166 | When disabled or without a time, nothing plays and no ref moves. The warning plays exactly at 10 seconds with the flag clear. A beep plays exactly at 1..3 seconds when the value changed. A reset jump clears the flag; otherwise the flag is set once the warning has been due. The last time seen is updated. |
| AudioManager.PhaseTick | components/draft/AudioManager.tsx:113-120 | The chord plays exactly when active and the status differs from the stored one. The stored status moves only when active. |
| AudioManager.PhaseTickIdempotent | components/draft/AudioManager.tsx:116-119 | A second phase run with the same status plays nothing and changes nothing. |
| AudioManager.TimerLeavesPhase | components/draft/AudioManager.tsx:112-166 | A timer run never changes whether the next phase run plays. |
| AudioManager.WarnedStaysQuiet | components/draft/AudioManager.tsx:145-148 | Once the warning has played, no run without a reset plays it again, and the flag stays set. |
| AudioManager.WarningAtMostOnce | components/draft/AudioManager.tsx:145-163 | Between resets the warning plays at most once, however many runs show 10 seconds. |
| AudioManager.ResetRearms | components/draft/AudioManager.tsx:158-163 | After a reset jump, the next run at 10 seconds plays the warning again. |
| AudioManager.JumpToTenReplaysLate | components/draft/AudioManager.tsx:145-163 | A jump straight to 10 seconds does not replay an already played warning on that run, because the reset check comes after the warning check. The next run at 10 seconds plays it. |
| AudioManager.RepeatedTick | components/draft/AudioManager.tsx:145-165 | Running the timer effect twice with the same value beeps no second countdown. It replays the warning only when the first run was a reset jump to 10. |
| AudioManager.CountdownBeepsThrice | components/draft/AudioManager.tsx:151-155 | The values 3, 2, 1 after any other value beep three times. |
| EnhancedMapCard.TiebreakerAlwaysLocked | components/draft/EnhancedMapCard.tsx:36-39 | A map of the TB pool is locked whatever its status. |
| EnhancedMapCard.TeamColor | components/draft/EnhancedMapCard.tsx:23-41 | The colour is undefined exactly without a picking side. Otherwise it is the red or blue colour, and an omitted colour takes its default. |
| EnhancedMapCard.DefaultTeamColors | components/draft/EnhancedMapCard.tsx:23-24 | With the colours omitted, red is #EF4444 and blue is #3B82F6, never empty. |
| EnhancedMapCard.ShownOverlays | components/draft/EnhancedMapCard.tsx:131-170 | The banned overlay shows exactly for banned maps. The picked overlay shows exactly for picked maps whose team colour is non-empty. The lock shows exactly for TB maps neither banned nor picked. At most one overlay shows. |
| EnhancedMapCard.PickedOverlayWithDefaults | components/draft/EnhancedMapCard.tsx:146 | A map picked by a side with default colours always shows the picked overlay. |
| EnhancedMapCard.Buttons | components/draft/EnhancedMapCard.tsx:173-205 | A ban button shows exactly with interaction allowed, ban mode and an onBan; likewise for picks. At most one button shows, and none when canInteract is omitted. |
| BeatmapCard.StatusOf | components/BeatmapCard.tsx:16 | An omitted status reads as available. |
| BeatmapCard.AttachedClick | components/BeatmapCard.tsx:32 | A disabled card has no click handler; otherwise the given handler is attached. |
| BeatmapCard.ShownOverlays | components/BeatmapCard.tsx:52-62 | The banned overlay shows exactly for status banned and the picked overlay exactly for picked, never both. |

## Findings

| source | as written | input that shows it | evidently intended | confidence | as-written member | corrected member |
|---|---|---|---|---|---|---|
| app/api/matches/[id]/action/route.ts:57 | The route calls `processMatchAction(match_id, action_type, team)` and never forwards a preference. The transition then returns before writing anything. | POST `{match_id, team, action_type: "preference"}` while the match is in preference selection: the match stays in preference selection. | The chosen preference is forwarded, so that banning or picking opens. | medium, not executed | MatchSession.RoutePreferenceIsInert | MatchSession.SubmitPreference |
| app/admin/stages/page.tsx:45-118 | The first-pass picks stay in the pattern, and the final block is appended after them. So the pick order starts over at the final block. | Snake, num_bans 2, best_of 1: tokens 4 and 5 are both picks by slot 1. The restart lies past the best_of - 1 picks that complete a draft, and up to there both patterns agree (StagePattern.PlayedPicksAgree). The stored pattern is also not read by the transition. So no draft reaches the restart. | Bans followed by the final block only, in one unbroken order. | low, not executed | StagePattern.SnakeOrderRestarts | StagePattern.IntendedDraftPattern |

## Left out

- Storage and network: the Supabase reads, writes and deletes are out. The rows read are parameters and the writes are returned as values. So are the HTTP handling of the action route, the osu! API client, authentication and the admin undo/reset route.
- Concurrency: two requests interleaving between the action insert and the transition are not modelled.
- Clock, randomness and dates: `Date.now()` is the parameter `now` in seconds, and the roll value is a parameter. The locale date in the summary is a string parameter, and ISO timestamps are integers.
- The stage's own timer duration and the draft pattern stored with a stage are not read by the transition, so the model does not connect them to it.
- StagePattern.FirstPassPicks: the second Snake loop computes a team per iteration and pushes nothing, so it has no counterpart.
- MapPool.Keep: `parseInt` is the abstract function `parse`, applied to the trimmed text, so `NaN` and partial parses are not modelled.
- MapPool.BlankIffAllSpace: whitespace is the ASCII set trimmed by `trim`. Unicode spaces and line terminators beyond these are not modelled.
- Text.Upper: upper-casing covers ASCII letters only. The strings it meets here (team and preference values) are ASCII.
- Text.FormatTimeRoundTrip: durations are integers, and the round trip is stated for non-negative ones. A fractional `beatmap.length` and the negative case, which prints a negative seconds field, are not proved.
- ExportModal.ExportJson: `JSON.stringify` formatting (indentation, key order, number and string escaping) is not modelled. An undefined preference, which drops the key, is not told apart from null.
- ExportModal: star ratings are passed through unchanged, as `real`. The clipboard and file download are left out.
- AudioManager: `SoundGenerator` is left out (Web Audio oscillators, frequencies, gains and `setTimeout` sequencing). So are the ban, pick and roll sound effects, which only play a sound when a prop turns truthy. Whether a generator exists is folded into the `active` parameter. React's decision of when an effect re-runs is not modelled: each call is one effect run.
- The map cards: styling, animation, icons, the BPM and AR display, the star rating printed with two decimals (`toFixed(2)`) and the hover glow are presentation and left out.
- MatchSession.Submit: it takes the preference as a parameter, which is the call `processMatchAction(..., preference)` makes. The route itself passes none; MatchSession.RoutePreferenceIsInert states that path.
