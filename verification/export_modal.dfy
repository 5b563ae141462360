/** The draft export (components/draft/ExportModal.tsx): the text summary, kept
    here as its sections and rendered line by line, and the record behind the
    JSON export.  The date shown in the summary is a parameter: it is the
    locale rendering of the match's creation time. */
module ExportModal {
  import opened Types
  import opened Text
  import PreferenceSelector

  /** A ledger entry as the export reads it. */
  datatype MatchAction = MatchAction(team: Team, actionType: ActionType, beatmapId: Option<string>,
                                     orderIndex: int, createdAt: string)

  /** A beatmap of the stage; `id` is the row id that actions refer to. */
  datatype Beatmap = Beatmap(id: string, beatmapId: int, modPool: ModPool, modIndex: int,
                             title: string, artist: string, difficultyName: string, starRating: real)

  /** The match columns the export reads. */
  datatype Match = Match(id: string, tournamentName: Option<string>, redName: string, blueName: string,
                         redRoll: Option<int>, blueRoll: Option<int>, rollWinner: Option<Team>,
                         preference: Option<RollPreference>, createdAt: string)

  const DefaultTournament: string := "osu! Tournament"

  /** The tournament name, or "osu! Tournament" when it is missing or empty. */
  function TournamentTitle(m: Match): (r: string)
    ensures r != ""
    ensures r == DefaultTournament <==> m.tournamentName.None? || m.tournamentName.value in {"", DefaultTournament}
    ensures r != DefaultTournament ==> m.tournamentName == Some(r)
  {
    match m.tournamentName
    case Some(t) => if t != "" then t else DefaultTournament
    case None => DefaultTournament
  }

  /** The action names a beatmap: its id is present and not the empty string. */
  predicate HasBeatmap(a: MatchAction)
  {
    a.beatmapId.Some? && a.beatmapId.value != ""
  }

  /** The actions of one kind that name a beatmap, in ledger order. */
  function Listed(actions: seq<MatchAction>, kind: ActionType): (r: seq<MatchAction>)
    ensures |r| <= |actions|
    ensures forall a :: a in r <==> a in actions && a.actionType == kind && HasBeatmap(a)
  {
    if actions == [] then []
    else
      (if actions[0].actionType == kind && HasBeatmap(actions[0]) then [actions[0]] else [])
      + Listed(actions[1..], kind)
  }

  /** Filtering keeps the input order: it distributes over concatenation. */
  lemma {:induction false} ListedAppend(a: seq<MatchAction>, b: seq<MatchAction>, kind: ActionType)
    ensures Listed(a + b, kind) == Listed(a, kind) + Listed(b, kind)
  {
    if a == [] {
      assert a + b == b;
    } else {
      var ab := a + b;
      assert ab[0] == a[0] && ab[1..] == a[1..] + b;
      ListedAppend(a[1..], b, kind);
      var h := if a[0].actionType == kind && HasBeatmap(a[0]) then [a[0]] else [];
      var x, y := Listed(a[1..], kind), Listed(b, kind);
      assert Listed(ab, kind) == h + (x + y);
      assert h + (x + y) == (h + x) + y;
    }
  }

  /** The first beatmap whose row id is the action's id; a missing id finds nothing. */
  function Lookup(beatmaps: seq<Beatmap>, id: Option<string>): (r: Option<Beatmap>)
    ensures r.Some? ==> r.value in beatmaps && id == Some(r.value.id)
    ensures r.None? <==> id.None? || forall b :: b in beatmaps ==> b.id != id.value
  {
    if id.None? || beatmaps == [] then None
    else if beatmaps[0].id == id.value then Some(beatmaps[0])
    else Lookup(beatmaps[1..], id)
  }

  /** `find` returns the first match: no earlier beatmap has the id. */
  lemma {:induction false} LookupFirst(beatmaps: seq<Beatmap>, id: string, i: nat)
    requires i < |beatmaps| && beatmaps[i].id == id
    ensures Lookup(beatmaps, Some(id)) == Some(beatmaps[FirstWithId(beatmaps, id, i)])
    ensures forall j :: 0 <= j < FirstWithId(beatmaps, id, i) ==> beatmaps[j].id != id
  {
    if beatmaps[0].id != id {
      LookupFirst(beatmaps[1..], id, i - 1);
    }
  }

  /** The position of the first beatmap with the id, given one at `i`. */
  function FirstWithId(beatmaps: seq<Beatmap>, id: string, i: nat): (j: nat)
    requires i < |beatmaps| && beatmaps[i].id == id
    ensures j <= i && beatmaps[j].id == id
    ensures forall k :: 0 <= k < j ==> beatmaps[k].id != id
  {
    if beatmaps[0].id == id then 0
    else
      var j := 1 + FirstWithId(beatmaps[1..], id, i - 1);
      assert forall k :: 1 <= k < j ==> beatmaps[k] == beatmaps[1..][k - 1];
      j
  }

  /** The first beatmap of the tiebreaker pool, if the stage has one. */
  function FindTiebreaker(beatmaps: seq<Beatmap>): (r: Option<Beatmap>)
    ensures r.Some? ==> r.value in beatmaps && r.value.modPool == TB
    ensures r.None? <==> forall b :: b in beatmaps ==> b.modPool != TB
    // `find` stops at the first map of the pool: no earlier beatmap is a tiebreaker.
    ensures r.Some? ==> exists i :: 0 <= i < |beatmaps| && beatmaps[i] == r.value
                                  && forall k :: 0 <= k < i ==> beatmaps[k].modPool != TB
  {
    if beatmaps == [] then None
    else if beatmaps[0].modPool == TB then Some(beatmaps[0])
    else FindTiebreaker(beatmaps[1..])
  }

  /** A numbered line of the ban or pick list. */
  datatype Entry = Entry(number: int, team: Team, beatmap: Beatmap)

  /** What the action numbered `n` emits: its line when its beatmap is found. */
  function Line(a: MatchAction, beatmaps: seq<Beatmap>, n: int): (r: seq<Entry>)
    ensures |r| <= 1
    ensures r != [] <==> Lookup(beatmaps, a.beatmapId).Some?
    ensures r != [] ==> r[0] == Entry(n, a.team, Lookup(beatmaps, a.beatmapId).value)
  {
    match Lookup(beatmaps, a.beatmapId)
    case Some(b) => [Entry(n, a.team, b)]
    case None => []
  }

  /** One pass over the listed actions: the action at position `i` is numbered
      `from + i + 1`, and emits its line only when its beatmap is found. */
  function Entries(list: seq<MatchAction>, beatmaps: seq<Beatmap>, from: nat): (r: seq<Entry>)
    ensures |r| <= |list|
    ensures forall k :: 0 <= k < |r| ==> from < r[k].number <= from + |list|
    decreases |list|
  {
    if list == [] then []
    else Line(list[0], beatmaps, from + 1) + Entries(list[1..], beatmaps, from + 1)
  }

  /** Line numbers strictly increase, so no number is used twice. */
  predicate Increasing(es: seq<Entry>)
  {
    forall k, l :: 0 <= k < l < |es| ==> es[k].number < es[l].number
  }

  lemma {:induction false} EntriesIncrease(list: seq<MatchAction>, beatmaps: seq<Beatmap>, from: nat)
    ensures Increasing(Entries(list, beatmaps, from))
    decreases |list|
  {
    if list != [] {
      EntriesIncrease(list[1..], beatmaps, from + 1);
      var h := Line(list[0], beatmaps, from + 1);
      var x := Entries(list[1..], beatmaps, from + 1);
      var r := Entries(list, beatmaps, from);
      assert r == h + x;
      forall k, l | 0 <= k < l < |r| ensures r[k].number < r[l].number {
        if k >= |h| {
          assert r[k] == x[k - |h|] && r[l] == x[l - |h|];
          assert x[k - |h|].number < x[l - |h|].number;
        } else {
          assert r[k] == h[0] && h[0].number == from + 1;
          assert r[l] == x[l - |h|] && x[l - |h|].number > from + 1;
        }
      }
    }
  }

  /** Some line carries number `n`. */
  predicate HasNumber(es: seq<Entry>, n: int)
  {
    exists k :: 0 <= k < |es| && es[k].number == n
  }

  /** Every line carrying number `n` is `e`. */
  predicate LinesNumbered(es: seq<Entry>, n: int, e: Entry)
  {
    forall k :: 0 <= k < |es| && es[k].number == n ==> es[k] == e
  }

  /** Numbering continues across a split of the list. */
  lemma {:induction false} EntriesAppend(a: seq<MatchAction>, b: seq<MatchAction>, beatmaps: seq<Beatmap>, from: nat)
    ensures Entries(a + b, beatmaps, from) == Entries(a, beatmaps, from) + Entries(b, beatmaps, from + |a|)
  {
    if a == [] {
      assert a + b == b;
    } else {
      EntriesUnfold(a + b, beatmaps, from);
      assert (a + b)[0] == a[0] && (a + b)[1..] == a[1..] + b;
      EntriesAppend(a[1..], b, beatmaps, from + 1);
      EntriesUnfold(a, beatmaps, from);
      SeqAssoc(Line(a[0], beatmaps, from + 1), Entries(a[1..], beatmaps, from + 1), Entries(b, beatmaps, from + |a|));
    }
  }

  /** The first action's line, then the rest numbered from one further on. */
  lemma EntriesUnfold(list: seq<MatchAction>, beatmaps: seq<Beatmap>, from: nat)
    requires list != []
    ensures Entries(list, beatmaps, from) == Line(list[0], beatmaps, from + 1) + Entries(list[1..], beatmaps, from + 1)
  {
  }

  lemma SeqAssoc(x: seq<Entry>, y: seq<Entry>, z: seq<Entry>)
    ensures x + (y + z) == (x + y) + z
  {
  }

  /** Number `from + i + 1` belongs to the action at position `i`: it is on a
      line exactly when that action's beatmap is found, and the line carries
      that action's team and beatmap.  An unmatched action still uses up its number. */
  lemma EntryFor(list: seq<MatchAction>, beatmaps: seq<Beatmap>, from: nat, i: nat)
    requires i < |list|
    ensures HasNumber(Entries(list, beatmaps, from), from + i + 1) <==> Lookup(beatmaps, list[i].beatmapId).Some?
    ensures Lookup(beatmaps, list[i].beatmapId).Some? ==>
      LinesNumbered(Entries(list, beatmaps, from), from + i + 1,
                    Entry(from + i + 1, list[i].team, Lookup(beatmaps, list[i].beatmapId).value))
  {
    var pre := Entries(list[..i], beatmaps, from);
    var mid := Line(list[i], beatmaps, from + i + 1);
    var suf := Entries(list[i + 1..], beatmaps, from + i + 1);
    EntriesAt(list, beatmaps, from, i);
    NumberInMiddle(pre, mid, suf, from + i + 1);
  }

  /** The lines before position `i`, its own line, and the lines after it. */
  lemma EntriesAt(list: seq<MatchAction>, beatmaps: seq<Beatmap>, from: nat, i: nat)
    requires i < |list|
    ensures Entries(list, beatmaps, from)
      == Entries(list[..i], beatmaps, from) + Line(list[i], beatmaps, from + i + 1)
         + Entries(list[i + 1..], beatmaps, from + i + 1)
  {
    var pre, post := list[..i], list[i..];
    assert list == pre + post;
    EntriesAppend(pre, post, beatmaps, from);
    EntriesUnfold(post, beatmaps, from + i);
    assert post[0] == list[i] && post[1..] == list[i + 1..];
    SeqAssoc(Entries(pre, beatmaps, from), Line(list[i], beatmaps, from + i + 1),
             Entries(list[i + 1..], beatmaps, from + i + 1));
  }

  /** A number above every earlier line and below every later one is found
      only on the middle line. */
  lemma NumberInMiddle(pre: seq<Entry>, mid: seq<Entry>, suf: seq<Entry>, n: int)
    requires |mid| <= 1
    requires forall k :: 0 <= k < |pre| ==> pre[k].number < n
    requires forall k :: 0 <= k < |suf| ==> suf[k].number > n
    requires mid != [] ==> mid[0].number == n
    ensures HasNumber(pre + mid + suf, n) <==> mid != []
    ensures mid != [] ==> LinesNumbered(pre + mid + suf, n, mid[0])
  {
    var r := pre + mid + suf;
    forall k | 0 <= k < |r| && r[k].number == n
      ensures |pre| <= k < |pre| + |mid| && r[k] == mid[k - |pre|]
    {
    }
    if mid != [] {
      assert r[|pre|] == mid[0];
    }
  }

  /** The tiebreaker line: the stage's first tiebreaker beatmap and its number. */
  datatype TiebreakerEntry = TiebreakerEntry(number: int, beatmap: Beatmap)

  /** The text summary, section by section. */
  datatype Summary = Summary(
    tournament: string, red: string, blue: string, date: string,
    redRoll: Option<int>, blueRoll: Option<int>, winner: string, preference: Option<string>,
    bans: seq<Entry>, picks: seq<Entry>, tiebreaker: Option<TiebreakerEntry>)

  /** The stored preference with its first underscore turned into a space, in capitals. */
  function PreferenceDisplay(p: RollPreference): string
  {
    Upper(ReplaceFirst(PreferenceValue(p), '_', ' '))
  }

  /** Replacing the underscore of "a_b" gives "a b". */
  lemma ReplaceUnderscore(first: string, second: string)
    requires forall k :: 0 <= k < |first| ==> first[k] != '_'
    ensures ReplaceFirst(first + "_" + second, '_', ' ') == first + " " + second
  {
    FirstIndexAfter(first, '_', second);
  }

  /** The display of a preference stored as "a_b" is "a b" in capitals. */
  lemma DisplayOf(p: RollPreference, first: string, second: string, words: string)
    requires PreferenceValue(p) == first + "_" + second
    requires forall k :: 0 <= k < |first| ==> first[k] != '_'
    requires first + " " + second == words
    ensures PreferenceDisplay(p) == Upper(words)
  {
    ReplaceUnderscore(first, second);
  }

  /** The preference line shows the words of the preference's card in capitals. */
  lemma PreferenceDisplayWords(p: RollPreference)
    ensures PreferenceDisplay(p) == Upper(PreferenceSelector.Label(p))
  {
    match p
    case FirstPick => DisplayWords(p, "first", "pick", "first pick", "First Pick");
    case SecondPick => DisplayWords(p, "second", "pick", "second pick", "Second Pick");
    case FirstBan => DisplayWords(p, "first", "ban", "first ban", "First Ban");
    case SecondBan => DisplayWords(p, "second", "ban", "second ban", "Second Ban");
  }

  /** One case: the stored value "first_second" is displayed as the capitals of a
      caption that differs from "first second" only in letter case. */
  lemma DisplayWords(p: RollPreference, first: string, second: string, words: string, caption: string)
    requires PreferenceValue(p) == first + "_" + second
    requires forall k :: 0 <= k < |first| ==> first[k] != '_'
    requires first + " " + second == words
    requires PreferenceSelector.Label(p) == caption && |words| == |caption|
    requires forall i :: 0 <= i < |words| ==> UpperChar(words[i]) == UpperChar(caption[i])
    ensures PreferenceDisplay(p) == Upper(PreferenceSelector.Label(p))
  {
    DisplayOf(p, first, second, words);
    SameUpper(words, caption);
  }

  /** `generateTextSummary`, kept as its sections. */
  function Summarize(m: Match, beatmaps: seq<Beatmap>, actions: seq<MatchAction>, date: string): (s: Summary)
    ensures s.tournament == TournamentTitle(m)
    // The winner line names red only for a red roll winner; blue otherwise, null included.
    ensures s.winner == if m.rollWinner == Some(Red) then m.redName else m.blueName
    ensures s.preference.Some? <==> m.preference.Some?
    ensures m.preference.Some? ==> s.preference == Some(PreferenceDisplay(m.preference.value))
    // The ban and pick sections are the numbered lines of the filtered lists,
    // whose content EntryFor pins down line by line.
    ensures s.bans == Entries(Listed(actions, Ban), beatmaps, 0)
    ensures s.picks == Entries(Listed(actions, Pick), beatmaps, 0)
    // Ban and pick lines are numbered by position in their filtered lists.
    ensures forall k :: 0 <= k < |s.bans| ==> 1 <= s.bans[k].number <= |Listed(actions, Ban)|
    ensures forall k :: 0 <= k < |s.picks| ==> 1 <= s.picks[k].number <= |Listed(actions, Pick)|
    ensures |s.bans| <= |Listed(actions, Ban)| && |s.picks| <= |Listed(actions, Pick)|
    // A tiebreaker line exactly when some beatmap is in the TB pool, numbered after
    // every listed pick, whether or not each pick's line was emitted.
    ensures s.tiebreaker.Some? <==> exists b :: b in beatmaps && b.modPool == TB
    ensures s.tiebreaker.Some? ==>
      s.tiebreaker.value.number == |Listed(actions, Pick)| + 1
      && s.tiebreaker.value.beatmap in beatmaps && s.tiebreaker.value.beatmap.modPool == TB
    // The tiebreaker line shows the first map of the TB pool.
    ensures s.tiebreaker.Some? ==> s.tiebreaker.value.beatmap == FindTiebreaker(beatmaps).value
  {
    var bans := Listed(actions, Ban);
    var picks := Listed(actions, Pick);
    var tb := FindTiebreaker(beatmaps);
    Summary(
      TournamentTitle(m), m.redName, m.blueName, date,
      m.redRoll, m.blueRoll,
      if m.rollWinner == Some(Red) then m.redName else m.blueName,
      if m.preference.Some? then Some(PreferenceDisplay(m.preference.value)) else None,
      Entries(bans, beatmaps, 0), Entries(picks, beatmaps, 0),
      if tb.Some? then Some(TiebreakerEntry(|picks| + 1, tb.value)) else None)
  }

  /** A nullable number in a template literal. */
  function NullableInt(v: Option<int>): string
  {
    match v
    case Some(n) => IntToString(n)
    case None => "null"
  }

  function EntryLine(e: Entry): string
  {
    IntToString(e.number) + ". [" + Upper(TeamValue(e.team)) + "] "
      + ModPoolValue(e.beatmap.modPool) + IntToString(e.beatmap.modIndex) + " - " + e.beatmap.title
  }

  function TiebreakerLine(t: TiebreakerEntry): string
  {
    IntToString(t.number) + ". [TB] " + ModPoolValue(t.beatmap.modPool) + IntToString(t.beatmap.modIndex) + " - " + t.beatmap.title
  }

  function EntryLines(es: seq<Entry>): (r: seq<string>)
    ensures |r| == |es|
    ensures forall k :: 0 <= k < |es| ==> r[k] == EntryLine(es[k])
  {
    if es == [] then [] else [EntryLine(es[0])] + EntryLines(es[1..])
  }

  /** The banner, the match and date lines, and the roll results. */
  function HeadLines(s: Summary): seq<string>
  {
    ["=== " + s.tournament + " - Draft Summary ===", "",
     "Match: " + s.red + " vs " + s.blue,
     "Date: " + s.date, "",
     "--- Roll Results ---",
     s.red + ": " + NullableInt(s.redRoll),
     s.blue + ": " + NullableInt(s.blueRoll),
     "Winner: " + s.winner]
  }

  function PreferenceLines(s: Summary): seq<string>
  {
    if s.preference.Some? then ["Preference: " + s.preference.value] else []
  }

  /** A blank line, the section heading, then one line per entry. */
  function ListLines(heading: string, es: seq<Entry>): seq<string>
  {
    ["", heading] + EntryLines(es)
  }

  function TiebreakerLines(s: Summary): seq<string>
  {
    if s.tiebreaker.Some? then [TiebreakerLine(s.tiebreaker.value)] else []
  }

  /** The summary's lines; the text is each line followed by "\n". */
  function Lines(s: Summary): (r: seq<string>)
    ensures |r| == (if s.preference.Some? then 14 else 13) + |s.bans| + |s.picks|
                   + (if s.tiebreaker.Some? then 1 else 0)
    ensures r[0] == "=== " + s.tournament + " - Draft Summary ==="
  {
    HeadLines(s) + PreferenceLines(s)
    + ListLines("--- Bans ---", s.bans) + ListLines("--- Picks ---", s.picks)
    + TiebreakerLines(s)
  }

  /** Lines joined, each terminated by a newline. */
  function Render(lines: seq<string>): (r: string)
    ensures |r| >= |lines|
  {
    if lines == [] then "" else lines[0] + "\n" + Render(lines[1..])
  }

  /** Cutting text at each newline; the inverse of `Render`. */
  function SplitLines(text: string): seq<string>
    decreases |text|
  {
    match FirstIndex(text, '\n')
    case None => if text == "" then [] else [text]
    case Some(i) => [text[..i]] + SplitLines(text[i + 1..])
  }

  predicate NoNewline(line: string)
  {
    '\n' !in line
  }

  /** Lines without newlines of their own are recovered from the rendered text. */
  lemma {:induction false} SplitRender(lines: seq<string>)
    requires AllSingle(lines)
    ensures SplitLines(Render(lines)) == lines
  {
    if lines != [] {
      var rest := Render(lines[1..]);
      assert Render(lines) == lines[0] + ['\n'] + rest;
      assert forall k :: 0 <= k < |lines[0]| ==> lines[0][k] in lines[0];
      FirstIndexAfter(lines[0], '\n', rest);
      assert (lines[0] + ['\n'] + rest)[..|lines[0]|] == lines[0];
      assert (lines[0] + ['\n'] + rest)[|lines[0]| + 1..] == rest;
      assert forall j :: 0 <= j < |lines[1..]| ==> lines[1..][j] == lines[j + 1];
      SplitRender(lines[1..]);
      assert lines == [lines[0]] + lines[1..];
    }
  }

  /** The summary as the text the modal shows, copies and downloads. */
  function SummaryText(m: Match, beatmaps: seq<Beatmap>, actions: seq<MatchAction>, date: string): (r: string)
    // The text opens with the title banner and every line, the last included, ends in a newline.
    ensures |r| > 4 && r[..4] == "=== " && r[|r| - 1] == '\n'
  {
    var lines := Lines(Summarize(m, beatmaps, actions, date));
    var r := Render(lines);
    RenderEnds(lines);
    assert lines[0][..4] == "=== ";
    assert r[..4] == r[..|lines[0]|][..4];
    r
  }

  /** Rendered lines start with the first line and end in a newline. */
  lemma {:induction false} RenderEnds(lines: seq<string>)
    requires lines != []
    ensures |Render(lines)| > |lines[0]|
    ensures Render(lines)[..|lines[0]|] == lines[0]
    ensures Render(lines)[|Render(lines)| - 1] == '\n'
  {
    var rest := Render(lines[1..]);
    assert Render(lines) == lines[0] + "\n" + rest;
    if lines[1..] != [] {
      RenderEnds(lines[1..]);
    } else {
      assert rest == "";
    }
  }

  /** The free-text fields the summary prints hold no line break of their own:
      team names, date, a given tournament name and every beatmap title. */
  predicate SingleLineFields(m: Match, beatmaps: seq<Beatmap>, date: string)
  {
    && NoNewline(m.redName) && NoNewline(m.blueName) && NoNewline(date)
    && (m.tournamentName.Some? ==> NoNewline(m.tournamentName.value))
    && (forall b :: b in beatmaps ==> NoNewline(b.title))
  }

  /** Cutting the summary text at its newlines gives back exactly the summary's
      lines, in order, whenever its free-text fields are single lines. */
  lemma SummaryTextLines(m: Match, beatmaps: seq<Beatmap>, actions: seq<MatchAction>, date: string)
    requires SingleLineFields(m, beatmaps, date)
    ensures SplitLines(SummaryText(m, beatmaps, actions, date)) == Lines(Summarize(m, beatmaps, actions, date))
  {
    var s := Summarize(m, beatmaps, actions, date);
    SummarySingleLine(m, beatmaps, actions, date);
    LinesSingle(s);
    SplitRender(Lines(s));
  }

  /** Every field of a summary that ends up in a line is free of newlines. */
  predicate SingleLineSummary(s: Summary)
  {
    && NoNewline(s.tournament) && NoNewline(s.red) && NoNewline(s.blue)
    && NoNewline(s.date) && NoNewline(s.winner)
    && (s.preference.Some? ==> NoNewline(s.preference.value))
    && (forall k :: 0 <= k < |s.bans| ==> NoNewline(s.bans[k].beatmap.title))
    && (forall k :: 0 <= k < |s.picks| ==> NoNewline(s.picks[k].beatmap.title))
    && (s.tiebreaker.Some? ==> NoNewline(s.tiebreaker.value.beatmap.title))
  }

  lemma SummarySingleLine(m: Match, beatmaps: seq<Beatmap>, actions: seq<MatchAction>, date: string)
    requires SingleLineFields(m, beatmaps, date)
    ensures SingleLineSummary(Summarize(m, beatmaps, actions, date))
  {
    var s := Summarize(m, beatmaps, actions, date);
    assert NoNewline(DefaultTournament);
    if m.preference.Some? {
      PreferenceSingleLine(m.preference.value);
    }
    EntriesFromStage(Listed(actions, Ban), beatmaps, 0);
    EntriesFromStage(Listed(actions, Pick), beatmaps, 0);
  }

  /** Every line carries a beatmap of the stage. */
  lemma {:induction false} EntriesFromStage(list: seq<MatchAction>, beatmaps: seq<Beatmap>, from: nat)
    ensures forall k :: 0 <= k < |Entries(list, beatmaps, from)| ==> Entries(list, beatmaps, from)[k].beatmap in beatmaps
    decreases |list|
  {
    if list != [] {
      EntriesUnfold(list, beatmaps, from);
      EntriesFromStage(list[1..], beatmaps, from + 1);
      var h := Line(list[0], beatmaps, from + 1);
      var x := Entries(list[1..], beatmaps, from + 1);
      var hx: seq<Entry> := h + x;
      forall k | 0 <= k < |hx| ensures hx[k].beatmap in beatmaps {
        if k >= |h| {
          assert hx[k] == x[k - |h|];
        }
      }
    }
  }

  lemma PreferenceSingleLine(p: RollPreference)
    ensures NoNewline(PreferenceDisplay(p))
  {
    var v := PreferenceValue(p);
    assert NoNewline(v) by {
      match p
      case FirstPick => assert v == "first_pick";
      case SecondPick => assert v == "second_pick";
      case FirstBan => assert v == "first_ban";
      case SecondBan => assert v == "second_ban";
    }
    ReplaceSingleLine(v, '_', ' ');
    UpperSingleLine(ReplaceFirst(v, '_', ' '));
  }

  lemma ReplaceSingleLine(s: string, c: char, d: char)
    requires NoNewline(s) && d != '\n'
    ensures NoNewline(ReplaceFirst(s, c, d))
  {
    var r := ReplaceFirst(s, c, d);
    forall k | 0 <= k < |r| ensures r[k] != '\n' {
      if r[k] != d {
        assert r[k] == s[k];
      }
    }
  }

  lemma UpperSingleLine(s: string)
    requires NoNewline(s)
    ensures NoNewline(Upper(s))
  {
    var r := Upper(s);
    forall k | 0 <= k < |r| ensures r[k] != '\n' {
      assert r[k] == UpperChar(s[k]) && s[k] in s;
    }
  }

  lemma IntSingleLine(n: int)
    ensures NoNewline(IntToString(n))
  {
    var d := NatToString(if n >= 0 then n else -n);
    forall k | 0 <= k < |d| ensures d[k] != '\n' {
      assert IsDigit(d[k]);
    }
  }

  lemma ValuesSingleLine(t: Team, m: ModPool)
    ensures NoNewline(Upper(TeamValue(t))) && NoNewline(ModPoolValue(m))
  {
    assert NoNewline(TeamValue(t)) by {
      match t
      case Red => assert TeamValue(t) == "red";
      case Blue => assert TeamValue(t) == "blue";
      case Tiebreaker => assert TeamValue(t) == "tiebreaker";
    }
    UpperSingleLine(TeamValue(t));
    match m
    case NM => assert ModPoolValue(m) == "NM";
    case HD => assert ModPoolValue(m) == "HD";
    case HR => assert ModPoolValue(m) == "HR";
    case FM => assert ModPoolValue(m) == "FM";
    case DT => assert ModPoolValue(m) == "DT";
    case TB => assert ModPoolValue(m) == "TB";
  }

  lemma EntrySingleLine(e: Entry)
    requires NoNewline(e.beatmap.title)
    ensures NoNewline(EntryLine(e))
  {
    IntSingleLine(e.number);
    IntSingleLine(e.beatmap.modIndex);
    ValuesSingleLine(e.team, e.beatmap.modPool);
  }

  lemma {:induction false} EntryLinesSingle(es: seq<Entry>)
    requires forall k :: 0 <= k < |es| ==> NoNewline(es[k].beatmap.title)
    ensures AllSingle(EntryLines(es))
  {
    forall k | 0 <= k < |es| ensures NoNewline(EntryLines(es)[k]) {
      EntrySingleLine(es[k]);
    }
  }

  /** No line of the list holds a newline. */
  predicate AllSingle(ls: seq<string>)
  {
    forall j :: 0 <= j < |ls| ==> NoNewline(ls[j])
  }

  lemma AllSingleAppend(a: seq<string>, b: seq<string>)
    requires AllSingle(a) && AllSingle(b)
    ensures AllSingle(a + b)
  {
    forall j | 0 <= j < |a + b| ensures NoNewline((a + b)[j]) {
      if j >= |a| {
        assert (a + b)[j] == b[j - |a|];
      }
    }
  }

  lemma HeadSingle(s: Summary)
    requires SingleLineSummary(s)
    ensures AllSingle(HeadLines(s))
  {
    RollSingle(s.redRoll);
    RollSingle(s.blueRoll);
    var h := HeadLines(s);
    forall j | 0 <= j < |h| ensures NoNewline(h[j]) {
      if j == 0 {
        JoinSingle("=== " + s.tournament, " - Draft Summary ===");
      } else if j == 2 {
        JoinSingle("Match: " + s.red, " vs " + s.blue);
      } else if j == 6 {
        JoinSingle(s.red, ": " + NullableInt(s.redRoll));
      } else if j == 7 {
        JoinSingle(s.blue, ": " + NullableInt(s.blueRoll));
      }
    }
  }

  lemma RollSingle(v: Option<int>)
    ensures NoNewline(NullableInt(v))
  {
    if v.Some? {
      IntSingleLine(v.value);
    }
  }

  lemma JoinSingle(a: string, b: string)
    requires NoNewline(a) && NoNewline(b)
    ensures NoNewline(a + b)
  {
  }

  lemma TiebreakerSingle(s: Summary)
    requires SingleLineSummary(s)
    ensures AllSingle(TiebreakerLines(s))
  {
    if s.tiebreaker.Some? {
      var t := s.tiebreaker.value;
      IntSingleLine(t.number);
      IntSingleLine(t.beatmap.modIndex);
      ValuesSingleLine(Red, t.beatmap.modPool);
    }
  }

  lemma ListSingle(heading: string, es: seq<Entry>)
    requires NoNewline(heading)
    requires forall k :: 0 <= k < |es| ==> NoNewline(es[k].beatmap.title)
    ensures AllSingle(ListLines(heading, es))
  {
    EntryLinesSingle(es);
    AllSingleAppend(["", heading], EntryLines(es));
  }

  lemma LinesSingle(s: Summary)
    requires SingleLineSummary(s)
    ensures AllSingle(Lines(s))
  {
    var head, pref := HeadLines(s), PreferenceLines(s);
    var bans, picks := ListLines("--- Bans ---", s.bans), ListLines("--- Picks ---", s.picks);
    var tb := TiebreakerLines(s);
    HeadSingle(s);
    ListSingle("--- Bans ---", s.bans);
    ListSingle("--- Picks ---", s.picks);
    TiebreakerSingle(s);
    AllSingleAppend(head, pref);
    AllSingleAppend(head + pref, bans);
    AllSingleAppend(head + pref + bans, picks);
    AllSingleAppend(head + pref + bans + picks, tb);
  }

  /** The beatmap fields the JSON export carries. */
  datatype BeatmapExport = BeatmapExport(id: int, modPool: ModPool, modIndex: int, title: string,
                                         artist: string, difficulty: string, starRating: real)

  datatype ActionExport = ActionExport(order: int, actionType: ActionType, team: Team,
                                       beatmap: Option<BeatmapExport>, timestamp: string)

  datatype RollExport = RollExport(red: Option<int>, blue: Option<int>, winner: Option<Team>,
                                   preference: Option<RollPreference>)

  datatype MatchExport = MatchExport(id: string, tournament: string, red: string, blue: string,
                                     roll: RollExport, date: string)

  /** The object `generateJSON` serialises. */
  datatype Export = Export(matchInfo: MatchExport, actions: seq<ActionExport>)

  function ExportBeatmap(b: Beatmap): BeatmapExport
  {
    BeatmapExport(b.beatmapId, b.modPool, b.modIndex, b.title, b.artist, b.difficultyName, b.starRating)
  }

  /** The export record of one action. */
  function ExportAction(a: MatchAction, beatmaps: seq<Beatmap>): ActionExport
  {
    var found := if HasBeatmap(a) then Lookup(beatmaps, a.beatmapId) else None;
    ActionExport(a.orderIndex, a.actionType, a.team,
                 if found.Some? then Some(ExportBeatmap(found.value)) else None, a.createdAt)
  }

  function ExportActions(actions: seq<MatchAction>, beatmaps: seq<Beatmap>): (r: seq<ActionExport>)
    // One record per action, in the same order, carrying its order, type, team and time.
    ensures |r| == |actions|
    ensures forall i :: 0 <= i < |actions| ==>
      && r[i].order == actions[i].orderIndex
      && r[i].actionType == actions[i].actionType
      && r[i].team == actions[i].team
      && r[i].timestamp == actions[i].createdAt
    // The beatmap is null when the id is falsy or names no beatmap of the stage.
    ensures forall i :: 0 <= i < |actions| ==>
      (r[i].beatmap.None? <==> !HasBeatmap(actions[i]) || Lookup(beatmaps, actions[i].beatmapId).None?)
    ensures forall i :: 0 <= i < |actions| && r[i].beatmap.Some? ==>
      exists b :: b in beatmaps && Some(b.id) == actions[i].beatmapId && r[i].beatmap.value == ExportBeatmap(b)
  {
    if actions == [] then [] else [ExportAction(actions[0], beatmaps)] + ExportActions(actions[1..], beatmaps)
  }

  /** The value `generateJSON` serialises. */
  function ExportJson(m: Match, beatmaps: seq<Beatmap>, actions: seq<MatchAction>): (r: Export)
    ensures r.matchInfo.tournament == TournamentTitle(m)
    ensures r.matchInfo.roll == RollExport(m.redRoll, m.blueRoll, m.rollWinner, m.preference)
    ensures r.actions == ExportActions(actions, beatmaps)
  {
    Export(MatchExport(m.id, TournamentTitle(m), m.redName, m.blueName,
                       RollExport(m.redRoll, m.blueRoll, m.rollWinner, m.preference), m.createdAt),
           ExportActions(actions, beatmaps))
  }
}
