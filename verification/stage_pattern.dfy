/** The draft pattern a new stage is created with (`generateDraftPattern`,
    app/admin/stages/page.tsx): the ban tokens, then the first-pass pick tokens
    the pattern loops push, then the final block of pick tokens.  Teams are the
    abstract slots 1 and 2.  The stored pattern is not read by the match
    transition, so this model stands apart from `MatchLogic`. */
module StagePattern {

  datatype DraftAction = BanAction | PickAction

  /** One `{ action, team }` entry of the pattern. */
  datatype Token = Token(action: DraftAction, team: int)

  /** The pattern type that selects the 1-2-2-1 pick order. */
  const Snake: string := "Snake"

  /** Snake order: slot 1 at positions 0 and 3 of every group of four. */
  function SnakeTeam(i: nat): int
  {
    if i % 4 == 0 || i % 4 == 3 then 1 else 2
  }

  /** Alternating order: 1, 2, 1, 2, ... */
  function AlternatingTeam(i: nat): int
  {
    i % 2 + 1
  }

  function TeamAt(snake: bool, i: nat): int
  {
    if snake then SnakeTeam(i) else AlternatingTeam(i)
  }

  /** How often a loop counting from 0 up to below `n` runs. */
  function Iterations(n: int): nat
  {
    if n > 0 then n else 0
  }

  /** The tokens `n` iterations of a loop push: position `i` gets `TeamAt(snake, i)`. */
  function Run(action: DraftAction, snake: bool, n: int): (r: seq<Token>)
    ensures |r| == Iterations(n)
    ensures forall i :: 0 <= i < |r| ==> r[i] == Token(action, TeamAt(snake, i))
    decreases Iterations(n)
  {
    if n <= 0 then [] else Run(action, snake, n - 1) + [Token(action, TeamAt(snake, n - 1))]
  }

  /** Number of first-pass pick tokens: `bestOf` for Snake, `bestOf + 2` otherwise. */
  function FirstPassLength(patternType: string, bestOf: int): nat
  {
    if patternType == Snake then Iterations(bestOf) else Iterations(bestOf + 2)
  }

  /** The ban tokens pushed first. */
  method BanTokens(numBans: int) returns (bans: seq<Token>)
    ensures |bans| == 2 * Iterations(numBans)
    ensures forall i :: 0 <= i < |bans| ==> bans[i].action == BanAction
    ensures forall i :: 0 <= i < |bans| ==> bans[i].team == 1 || bans[i].team == 2
    // 1,2 for one ban each, 1,2,2,1 for two, alternating from 1 otherwise.
    ensures numBans == 1 ==> bans == [Token(BanAction, 1), Token(BanAction, 2)]
    ensures numBans == 2 ==>
      bans == [Token(BanAction, 1), Token(BanAction, 2), Token(BanAction, 2), Token(BanAction, 1)]
    ensures numBans != 1 && numBans != 2 ==> forall i :: 0 <= i < |bans| ==> bans[i].team == i % 2 + 1
  {
    bans := [];
    if numBans == 1 {
      bans := [Token(BanAction, 1), Token(BanAction, 2)];
    } else if numBans == 2 {
      bans := [Token(BanAction, 1), Token(BanAction, 2), Token(BanAction, 2), Token(BanAction, 1)];
    } else {
      var i := 0;
      while i < numBans * 2
        invariant 0 <= i <= Iterations(numBans * 2)
        invariant bans == Run(BanAction, false, i)
      {
        bans := bans + [Token(BanAction, i % 2 + 1)];
        i := i + 1;
      }
    }
  }

  /** The first-pass pick loops: `bestOf` Snake picks, whose team is carried
      from one iteration to the next in `currentTeam`, or `bestOf + 2`
      alternating picks.  The second Snake loop of the source computes a team
      per iteration but pushes nothing, so it has no counterpart here. */
  method FirstPassPicks(patternType: string, bestOf: int) returns (picks: seq<Token>)
    ensures |picks| == FirstPassLength(patternType, bestOf)
    ensures forall i :: 0 <= i < |picks| ==> picks[i] == Token(PickAction, TeamAt(patternType == Snake, i))
  {
    picks := [];
    if patternType == Snake {
      var currentTeam := 1;
      var i := 0;
      while i < bestOf
        invariant 0 <= i <= Iterations(bestOf)
        invariant currentTeam == SnakeTeam(i)
        invariant picks == Run(PickAction, true, i)
      {
        picks := picks + [Token(PickAction, currentTeam)];
        if i % 4 == 0 {
          currentTeam := 2;
        } else if i % 4 == 1 {
          currentTeam := 2;
        } else if i % 4 == 2 {
          currentTeam := 1;
        } else {
          currentTeam := 1;
        }
        i := i + 1;
      }
    } else {
      var i := 0;
      while i < bestOf + 2
        invariant 0 <= i <= Iterations(bestOf + 2)
        invariant picks == Run(PickAction, false, i)
      {
        picks := picks + [Token(PickAction, i % 2 + 1)];
        i := i + 1;
      }
    }
  }

  /** The final block (`picks`): `bestOf + 5` picks in the pattern type's order. */
  method FinalPicks(patternType: string, bestOf: int) returns (picks: seq<Token>)
    ensures |picks| == Iterations(bestOf + 5)
    ensures forall i :: 0 <= i < |picks| ==> picks[i] == Token(PickAction, TeamAt(patternType == Snake, i))
  {
    picks := [];
    var i := 0;
    while i < bestOf + 5
      invariant 0 <= i <= Iterations(bestOf + 5)
      invariant picks == Run(PickAction, patternType == Snake, i)
    {
      var team := 1;
      if patternType == Snake {
        team := if i % 4 == 0 || i % 4 == 3 then 1 else 2;
      } else {
        team := i % 2 + 1;
      }
      picks := picks + [Token(PickAction, team)];
      i := i + 1;
    }
  }

  /** `generateDraftPattern`: the ban tokens and first-pass picks, then the final block. */
  method GenerateDraftPattern(patternType: string, numBans: int, bestOf: int) returns (pattern: seq<Token>)
    // Length: the ban tokens, the first-pass picks and the final block of bestOf + 5 picks.
    ensures |pattern| == 2 * Iterations(numBans) + FirstPassLength(patternType, bestOf) + Iterations(bestOf + 5)
    // Exactly the first 2 * numBans tokens are bans: every ban precedes every pick.
    ensures forall i :: 0 <= i < |pattern| ==>
      (pattern[i].action == BanAction <==> i < 2 * Iterations(numBans))
    // Every token belongs to slot 1 or slot 2.
    ensures forall i :: 0 <= i < |pattern| ==> pattern[i].team == 1 || pattern[i].team == 2
    // Ban order: 1,2 for one ban each, 1,2,2,1 for two, alternating from 1 otherwise.
    ensures numBans == 1 ==> pattern[..2] == [Token(BanAction, 1), Token(BanAction, 2)]
    ensures numBans == 2 ==>
      pattern[..4] == [Token(BanAction, 1), Token(BanAction, 2), Token(BanAction, 2), Token(BanAction, 1)]
    ensures numBans != 1 && numBans != 2 ==>
      forall i :: 0 <= i < 2 * Iterations(numBans) ==> pattern[i].team == i % 2 + 1
    // First pass: Snake picks cycle 1,2,2,1; other types alternate from 1.
    ensures forall i :: 2 * Iterations(numBans) <= i < 2 * Iterations(numBans) + FirstPassLength(patternType, bestOf) ==>
      pattern[i] == Token(PickAction, TeamAt(patternType == Snake, i - 2 * Iterations(numBans)))
    // Final block: bestOf + 5 picks in the pattern type's order, from slot 1.
    ensures forall i :: |pattern| - Iterations(bestOf + 5) <= i < |pattern| ==>
      pattern[i] == Token(PickAction, TeamAt(patternType == Snake, i - (|pattern| - Iterations(bestOf + 5))))
  {
    var bans := BanTokens(numBans);
    var firstPass := FirstPassPicks(patternType, bestOf);
    var picks := FinalPicks(patternType, bestOf);
    pattern := bans + firstPass + picks;
  }

  /** As written, the first-pass picks stay in front of the final block, so the
      pick order starts over where the final block begins: a Snake stage with
      two bans each and best of 1 gives slot 1 two picks in a row (tokens 4
      and 5), where the snake order gives slot 2 the second pick. */
  method SnakeOrderRestarts() returns (pattern: seq<Token>)
    ensures |pattern| == 11
    ensures pattern[4] == Token(PickAction, 1) && pattern[5] == Token(PickAction, 1)
  {
    pattern := GenerateDraftPattern(Snake, 2, 1);
  }

  /** The pattern the final block was written to produce on its own: the ban
      tokens followed by `bestOf + 5` picks in one unbroken order. */
  method IntendedDraftPattern(patternType: string, numBans: int, bestOf: int) returns (pattern: seq<Token>)
    ensures |pattern| == 2 * Iterations(numBans) + Iterations(bestOf + 5)
    ensures forall i :: 0 <= i < |pattern| ==>
      (pattern[i].action == BanAction <==> i < 2 * Iterations(numBans))
    // Every pick continues the pattern type's order from the first pick on.
    ensures forall i :: 2 * Iterations(numBans) <= i < |pattern| ==>
      pattern[i] == Token(PickAction, TeamAt(patternType == Snake, i - 2 * Iterations(numBans)))
  {
    var bans := BanTokens(numBans);
    var picks := FinalPicks(patternType, bestOf);
    pattern := bans + picks;
  }

  /** The restart lies past every pick a draft makes: the draft completes after
      `bestOf - 1` picks, and up to there the pattern as written and the intended
      one agree token for token. */
  method PlayedPicksAgree(patternType: string, numBans: int, bestOf: int)
    returns (asWritten: seq<Token>, intended: seq<Token>)
    ensures 2 * Iterations(numBans) + Iterations(bestOf - 1) <= |asWritten|
    ensures 2 * Iterations(numBans) + Iterations(bestOf - 1) <= |intended|
    ensures forall i :: 0 <= i < 2 * Iterations(numBans) + Iterations(bestOf - 1) ==>
      asWritten[i].action == intended[i].action
    ensures forall i :: 2 * Iterations(numBans) <= i < 2 * Iterations(numBans) + Iterations(bestOf - 1) ==>
      asWritten[i] == intended[i]
  {
    asWritten := GenerateDraftPattern(patternType, numBans, bestOf);
    intended := IntendedDraftPattern(patternType, numBans, bestOf);
  }
}
