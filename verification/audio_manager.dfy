/** The sound cues of the draft screen (components/draft/AudioManager.tsx) as a
    state machine.  The component keeps three refs across renders: the last
    status seen, the last `timeRemaining` seen, and whether the ten-second
    warning has played.  Each run of the timer effect or of the phase effect
    is one transition here; the sounds it asks for are returned in order.
    Whether the effect may play at all (`enabled` and a sound generator
    present) is the parameter `active`. */
module AudioManager {
  import opened Types

  datatype Sound = PhaseChange | TimerWarning | Countdown

  /** The three refs: `previousStatus`, `previousTimeRemaining`, `hasPlayedWarning`. */
  datatype AudioState = AudioState(previousStatus: MatchStatus, previousTime: Option<int>, warned: bool)

  /** The state after the first render: both refs hold the first props, no warning yet. */
  function Init(status: MatchStatus, time: Option<int>): (s: AudioState)
    ensures s.previousStatus == status && s.previousTime == time && !s.warned
  {
    AudioState(status, time, false)
  }

  /** What one effect run leaves behind and the sounds it plays, in order. */
  datatype Step = Step(state: AudioState, sounds: seq<Sound>)

  /** The timer counts as reset when it jumps more than five seconds above
      the last value seen. */
  predicate IsReset(previous: Option<int>, t: int)
  {
    previous.Some? && t > previous.value + 5
  }

  /** One run of the timer effect with `timeRemaining == time`. */
  function TimerTick(s: AudioState, active: bool, time: Option<int>): (r: Step)
    // Disabled, without a generator or without a time: nothing plays and no ref moves.
    ensures !active || time.None? ==> r == Step(s, [])
    ensures active && time.Some? ==>
      r.state.previousTime == time && r.state.previousStatus == s.previousStatus
    // The warning plays at exactly ten seconds, and only while it has not played yet.
    ensures TimerWarning in r.sounds <==> active && time == Some(10) && !s.warned
    // A countdown beep at 3, 2 and 1 seconds, whenever the value differs from the last one seen.
    ensures Countdown in r.sounds <==>
      active && time.Some? && 0 < time.value <= 3 && s.previousTime != time
    ensures PhaseChange !in r.sounds && |r.sounds| <= 1
    // A reset clears the flag, even when the warning has just played on this run.
    ensures active && time.Some? && IsReset(s.previousTime, time.value) ==> !r.state.warned
    // Otherwise the flag is set once the warning has been due, and stays set.
    ensures active && time.Some? && !IsReset(s.previousTime, time.value) ==>
      (r.state.warned <==> s.warned || time.value == 10)
  {
    if !active || time.None? then Step(s, [])
    else
      var t := time.value;
      var warn := t == 10 && !s.warned;
      var beep := t <= 3 && t > 0 && s.previousTime != Some(t);
      var warned := if IsReset(s.previousTime, t) then false else s.warned || warn;
      Step(AudioState(s.previousStatus, Some(t), warned),
           (if warn then [TimerWarning] else []) + (if beep then [Countdown] else []))
  }

  /** One run of the phase effect with `status`. */
  function PhaseTick(s: AudioState, active: bool, status: MatchStatus): (r: Step)
    // The stored status moves only when the effect may play.
    ensures !active ==> r == Step(s, [])
    ensures active ==> r.state == s.(previousStatus := status)
    // The phase sound plays exactly when the status differs from the stored one.
    ensures r.sounds == [PhaseChange] <==> active && s.previousStatus != status
    ensures r.sounds == [] <==> !active || s.previousStatus == status
  {
    if !active then Step(s, [])
    else Step(s.(previousStatus := status), if s.previousStatus != status then [PhaseChange] else [])
  }

  /** A second phase run with the same status plays nothing and changes nothing. */
  lemma PhaseTickIdempotent(s: AudioState, active: bool, status: MatchStatus)
    ensures var once := PhaseTick(s, active, status);
      PhaseTick(once.state, active, status) == Step(once.state, [])
  {
  }

  /** The phase sound and the timer sounds are driven by separate refs: a timer
      run never changes whether the next phase run plays. */
  lemma TimerLeavesPhase(s: AudioState, active: bool, time: Option<int>, status: MatchStatus, phaseActive: bool)
    ensures PhaseTick(TimerTick(s, active, time).state, phaseActive, status).sounds
         == PhaseTick(s, phaseActive, status).sounds
  {
  }

  /** One timer run: whether the effect may play, and the `timeRemaining` it sees. */
  datatype Tick = Tick(active: bool, time: Option<int>)

  /** Timer runs one after another; the sounds of every run, in order. */
  function Replay(s: AudioState, ticks: seq<Tick>): (r: Step)
    ensures ticks == [] ==> r == Step(s, [])
    decreases |ticks|
  {
    if ticks == [] then Step(s, [])
    else
      var first := TimerTick(s, ticks[0].active, ticks[0].time);
      var rest := Replay(first.state, ticks[1..]);
      Step(rest.state, first.sounds + rest.sounds)
  }

  /** No run of the sequence sees the timer reset. */
  predicate NoReset(s: AudioState, ticks: seq<Tick>)
    decreases |ticks|
  {
    ticks == [] ||
    (!(ticks[0].active && ticks[0].time.Some? && IsReset(s.previousTime, ticks[0].time.value))
     && NoReset(TimerTick(s, ticks[0].active, ticks[0].time).state, ticks[1..]))
  }

  /** How many times `x` occurs in `sounds`. */
  function Occurrences(sounds: seq<Sound>, x: Sound): (n: nat)
    ensures n == 0 <==> x !in sounds
  {
    if sounds == [] then 0
    else (if sounds[0] == x then 1 else 0) + Occurrences(sounds[1..], x)
  }

  lemma {:induction false} OccurrencesAppend(a: seq<Sound>, b: seq<Sound>, x: Sound)
    ensures Occurrences(a + b, x) == Occurrences(a, x) + Occurrences(b, x)
  {
    if a == [] {
      assert a + b == b;
    } else {
      assert (a + b)[1..] == a[1..] + b;
      OccurrencesAppend(a[1..], b, x);
    }
  }

  /** Once the warning has played, it does not play again until the timer resets. */
  lemma {:induction false} WarnedStaysQuiet(s: AudioState, ticks: seq<Tick>)
    requires s.warned && NoReset(s, ticks)
    ensures TimerWarning !in Replay(s, ticks).sounds
    ensures Replay(s, ticks).state.warned
    decreases |ticks|
  {
    if ticks != [] {
      var first := TimerTick(s, ticks[0].active, ticks[0].time);
      WarnedStaysQuiet(first.state, ticks[1..]);
    }
  }

  /** Between resets the warning plays at most once, however often the timer
      shows ten seconds. */
  lemma {:induction false} WarningAtMostOnce(s: AudioState, ticks: seq<Tick>)
    requires NoReset(s, ticks)
    ensures Occurrences(Replay(s, ticks).sounds, TimerWarning) <= 1
    ensures s.warned ==> Occurrences(Replay(s, ticks).sounds, TimerWarning) == 0
    decreases |ticks|
  {
    if ticks != [] {
      var first := TimerTick(s, ticks[0].active, ticks[0].time);
      var rest := Replay(first.state, ticks[1..]);
      OccurrencesAppend(first.sounds, rest.sounds, TimerWarning);
      if first.state.warned {
        WarnedStaysQuiet(first.state, ticks[1..]);
      } else {
        WarningAtMostOnce(first.state, ticks[1..]);
        assert TimerWarning !in first.sounds;
      }
      assert Occurrences(first.sounds, TimerWarning) <= 1 by {
        if first.sounds != [] {
          assert first.sounds[1..] == [];
        }
      }
    }
  }

  /** A reset re-arms the warning: the next run at ten seconds plays it again. */
  lemma ResetRearms(s: AudioState, t: int)
    requires IsReset(s.previousTime, t)
    ensures var next := TimerTick(s, true, Some(t)).state;
      !next.warned && TimerWarning in TimerTick(next, true, Some(10)).sounds
  {
  }

  /** A jump straight to ten seconds counts as a reset only after the warning
      check, so an already played warning stays silent on that run, and the
      next run at ten seconds plays it. */
  lemma JumpToTenReplaysLate(s: AudioState)
    requires s.warned && IsReset(s.previousTime, 10)
    ensures var first := TimerTick(s, true, Some(10));
      TimerWarning !in first.sounds && !first.state.warned
      && TimerWarning in TimerTick(first.state, true, Some(10)).sounds
  {
  }

  /** Running the timer effect twice with the same value (as when `enabled`
      toggles) beeps no second countdown; it replays the warning only when the
      first run was a jump to ten seconds. */
  lemma RepeatedTick(s: AudioState, t: int)
    ensures var first := TimerTick(s, true, Some(t));
      var second := TimerTick(first.state, true, Some(t));
      Countdown !in second.sounds
      && (TimerWarning in second.sounds <==> t == 10 && IsReset(s.previousTime, 10))
  {
  }

  /** The countdown 3, 2, 1 after any other value beeps three times. */
  lemma CountdownBeepsThrice(s: AudioState)
    requires s.previousTime != Some(3)
    ensures Occurrences(Replay(s, [Tick(true, Some(3)), Tick(true, Some(2)), Tick(true, Some(1))]).sounds, Countdown) == 3
  {
    var ticks := [Tick(true, Some(3)), Tick(true, Some(2)), Tick(true, Some(1))];
    var s1 := TimerTick(s, true, Some(3)).state;
    var s2 := TimerTick(s1, true, Some(2)).state;
    assert ticks[1..] == [Tick(true, Some(2)), Tick(true, Some(1))];
    assert ticks[1..][1..] == [Tick(true, Some(1))];
    assert Replay(s2, [Tick(true, Some(1))]).sounds == [Countdown];
    assert Replay(s1, ticks[1..]).sounds == [Countdown, Countdown];
    var beeps := [Countdown, Countdown, Countdown];
    assert Replay(s, ticks).sounds == beeps;
    assert beeps[1..] == [Countdown, Countdown] && beeps[1..][1..] == [Countdown];
    assert Occurrences([Countdown], Countdown) == 1;
  }
}
