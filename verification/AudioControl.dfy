/** Starting and stopping the audio player: the player thread against pauses from the virtual machine. */
module AudioControl {

  datatype Status = Null | Idle | Playing

  /** Where the player thread is in audio_player_play: before the start, between app_start and app_play_process,
      in the play loop, or inside its own audio_player_pause, before and after it set the status IDLE. */
  datatype Player = AtRest | Started | InLoop | Checked | Marked

  /** `vmChecked` counts the pauses of the virtual machine that have seen PLAYING and not set IDLE yet, `vmMarked`
      those that have set IDLE and not stopped yet. */
  datatype State = State(status: Status, player: Player, vmChecked: nat, vmMarked: nat, starts: nat, stops: nat)

  /** audio_player_pause has three steps: it checks for PLAYING, marks the player IDLE, and calls app_stop. */
  datatype Event =
    | Initialize    // audio_player_initialize
    | Start         // audio_player_play up to a successful app_start
    | EnterLoop     // app_play_process sets PLAYING
    | PlayerCheck   // audio_player_pause by the player thread
    | PlayerMark
    | PlayerStop
    | VmCheck       // audio_player_pause by the virtual machine
    | VmMark
    | VmStop
    | Close         // the player thread ends: status NULL

  predicate Enabled(s: State, e: Event) {
    match e
    case Initialize => s.status.Null? && s.player.AtRest?
    case Start => s.player.AtRest? && !s.status.Null?
    case EnterLoop => s.player.Started?
    case PlayerCheck => s.player.InLoop?
    case PlayerMark => s.player.Checked?
    case PlayerStop => s.player.Marked?
    case VmCheck => true
    case VmMark => s.vmChecked > 0
    case VmStop => s.vmMarked > 0
    case Close => s.player.AtRest?
  }

  function Apply(s: State, e: Event): State
    requires Enabled(s, e)
  {
    match e
    case Initialize => s.(status := Idle)
    case Start => s.(player := Started, starts := s.starts + 1)
    case EnterLoop => s.(player := InLoop, status := Playing)
    case PlayerCheck => s.(player := if s.status.Playing? then Checked else AtRest)
    case PlayerMark => s.(player := Marked, status := Idle)
    case PlayerStop => s.(player := AtRest, stops := s.stops + 1)
    case VmCheck => if s.status.Playing? then s.(vmChecked := s.vmChecked + 1) else s
    case VmMark => s.(vmChecked := s.vmChecked - 1, vmMarked := s.vmMarked + 1, status := Idle)
    case VmStop => s.(vmMarked := s.vmMarked - 1, stops := s.stops + 1)
    case Close => s.(status := Null)
  }

  const OFF := State(Null, AtRest, 0, 0, 0, 0)

  predicate IsRun(s: State, es: seq<Event>)
    decreases |es|
  {
    es == [] || (Enabled(s, es[0]) && IsRun(Apply(s, es[0]), es[1..]))
  }

  function RunTo(s: State, es: seq<Event>): State
    requires IsRun(s, es)
    decreases |es|
  {
    if es == [] then s else RunTo(Apply(s, es[0]), es[1..])
  }

  // ---- What is owed --------------------------------------------------------------------------

  /** Stops that are still to come: one for a player that runs, one for every pause that has marked it IDLE. */
  function Owed(s: State): nat {
    (if s.player.Started? then 1 else 0) + (if s.status.Playing? then 1 else 0)
    + (if s.player.Marked? then 1 else 0) + s.vmMarked
  }

  /** PLAYING is seen only while the player thread is in its loop, or leaves it. */
  predicate PlayingInLoop(s: State) {
    s.status.Playing? ==> s.player.InLoop? || s.player.Checked?
  }

  /** A pause marks a player that is no longer PLAYING: the other side has marked it since the check. */
  predicate IsStray(s: State, e: Event) {
    (e.PlayerMark? || e.VmMark?) && !s.status.Playing?
  }

  function Strays(s: State, es: seq<Event>): nat
    requires IsRun(s, es)
    decreases |es|
  {
    if es == [] then 0 else (if IsStray(s, es[0]) then 1 else 0) + Strays(Apply(s, es[0]), es[1..])
  }

  lemma {:induction false} StopsBalance(s: State, es: seq<Event>)
    requires PlayingInLoop(s) && IsRun(s, es)
    ensures PlayingInLoop(RunTo(s, es))
    ensures var s' := RunTo(s, es);
            s'.stops + Owed(s') + s.starts == s'.starts + Strays(s, es) + s.stops + Owed(s)
    decreases |es|
  {
    if es == [] {
    } else {
      StopsBalance(Apply(s, es[0]), es[1..]);
    }
  }

  /** Over every run, whatever the two sides do: stops done and stops owed are the starts and the stray pauses. */
  lemma {:induction false} StopsCounted(es: seq<Event>)
    requires IsRun(OFF, es)
    ensures var s := RunTo(OFF, es); s.stops + Owed(s) == s.starts + Strays(OFF, es)
  {
    StopsBalance(OFF, es);
  }

  // ---- When the player can be started --------------------------------------------------------

  /** Whether the player is initialized and not closed since. */
  function OpenAfter(e: Event, open: bool): bool {
    if e.Initialize? then true else if e.Close? then false else open
  }

  /** A pause marks a player that has been closed since the check. */
  predicate MarksClosed(s: State, e: Event) {
    (e.PlayerMark? || e.VmMark?) && s.status.Null?
  }

  predicate NoMarkOnClosed(s: State, es: seq<Event>)
    requires IsRun(s, es)
    decreases |es|
  {
    es == [] || (!MarksClosed(s, es[0]) && NoMarkOnClosed(Apply(s, es[0]), es[1..]))
  }

  /** In every state of the run the status is NULL exactly when the player is not open. */
  predicate StatusTells(s: State, open: bool, es: seq<Event>)
    requires IsRun(s, es)
    decreases |es|
  {
    && (s.status.Null? <==> !open)
    && (es == [] || StatusTells(Apply(s, es[0]), OpenAfter(es[0], open), es[1..]))
  }

  /** Every start comes after an initialization, with no close in between. */
  predicate StartsOpen(open: bool, es: seq<Event>)
    decreases |es|
  {
    es == [] || ((es[0].Start? ==> open) && StartsOpen(OpenAfter(es[0], open), es[1..]))
  }

  lemma {:induction false} TellsIff(s: State, open: bool, es: seq<Event>)
    requires IsRun(s, es) && (s.status.Null? <==> !open) && (s.player.Started? ==> open)
    ensures StatusTells(s, open, es) <==> NoMarkOnClosed(s, es)
    ensures NoMarkOnClosed(s, es) ==> StartsOpen(open, es)
    decreases |es|
  {
    if es == [] {
    } else {
      var s', open' := Apply(s, es[0]), OpenAfter(es[0], open);
      if !MarksClosed(s, es[0]) { TellsIff(s', open', es[1..]); }
    }
  }

  /** The status tells in every state of a run whether the player is initialized, if and only if no pause marks a player
      that has been closed since its check; and then the player is started only while it is initialized. */
  lemma StatusTellsIff(es: seq<Event>)
    requires IsRun(OFF, es)
    ensures StatusTells(OFF, false, es) <==> NoMarkOnClosed(OFF, es)
    ensures NoMarkOnClosed(OFF, es) ==> StartsOpen(false, es)
  {
    TellsIff(OFF, false, es);
  }

  // ---- When starts and stops match -----------------------------------------------------------

  /** One start is open at most, and it is open exactly until its stop: while the player runs, or while one pause
      has marked it and is about to stop it. */
  predicate Matched(s: State) {
    s.starts == s.stops + Owed(s) && Owed(s) <= 1
  }

  /** Every state of the run is matched. */
  predicate AlwaysMatched(s: State, es: seq<Event>)
    requires IsRun(s, es)
    decreases |es|
  {
    Matched(s) && (es == [] || AlwaysMatched(Apply(s, es[0]), es[1..]))
  }

  /** A pause still finds PLAYING when it marks, and the player is not started while a pause is about to stop it. */
  predicate InTime(s: State, e: Event) {
    !IsStray(s, e) && (e.Start? ==> s.vmMarked == 0)
  }

  predicate RunsInTime(s: State, es: seq<Event>)
    requires IsRun(s, es)
    decreases |es|
  {
    es == [] || (InTime(s, es[0]) && RunsInTime(Apply(s, es[0]), es[1..]))
  }

  lemma {:induction false} MatchedIff(s: State, es: seq<Event>)
    requires PlayingInLoop(s) && Matched(s) && IsRun(s, es)
    ensures AlwaysMatched(s, es) <==> RunsInTime(s, es)
    decreases |es|
  {
    if es == [] {
    } else {
      var s' := Apply(s, es[0]);
      assert Matched(s') <==> InTime(s, es[0]);
      if Matched(s') { MatchedIff(s', es[1..]); }
    }
  }

  /** Starts and stops match in every state of a run if and only if every pause of the run finds PLAYING not only
      when it checks but also when it marks, and no start comes between the mark and the stop of a pause. */
  lemma {:induction false} StartsMatchStopsIff(es: seq<Event>)
    requires IsRun(OFF, es)
    ensures AlwaysMatched(OFF, es) <==> RunsInTime(OFF, es)
  {
    MatchedIff(OFF, es);
  }

  /** Between a check and the stop that follows it. */
  predicate InPause(s: State) {
    s.player.Checked? || s.player.Marked? || s.vmChecked + s.vmMarked > 0
  }

  predicate EndsPause(e: Event) {
    e.PlayerMark? || e.PlayerStop? || e.VmMark? || e.VmStop?
  }

  /** No event comes between the check of a pause and its stop. */
  predicate PausesAreAtomic(s: State, es: seq<Event>)
    requires IsRun(s, es)
    decreases |es|
  {
    es == [] || ((InPause(s) ==> EndsPause(es[0])) && PausesAreAtomic(Apply(s, es[0]), es[1..]))
  }

  /** One pause at most is under way, and if it has not marked yet the player is PLAYING. */
  predicate OnePause(s: State) {
    var checked := s.vmChecked + if s.player.Checked? then 1 else 0;
    && checked + s.vmMarked + (if s.player.Marked? then 1 else 0) <= 1
    && (checked > 0 ==> s.status.Playing?)
  }

  lemma {:induction false} AtomicPausesAreInTime(s: State, es: seq<Event>)
    requires PlayingInLoop(s) && OnePause(s) && IsRun(s, es) && PausesAreAtomic(s, es)
    ensures RunsInTime(s, es)
    decreases |es|
  {
    if es == [] {
    } else {
      AtomicPausesAreInTime(Apply(s, es[0]), es[1..]);
    }
  }

  /** With the check, the mark and the stop of every pause taken as one step, starts and stops always match. */
  lemma {:induction false} AtomicRunMatched(es: seq<Event>)
    requires IsRun(OFF, es) && PausesAreAtomic(OFF, es)
    ensures AlwaysMatched(OFF, es)
  {
    AtomicPausesAreInTime(OFF, es);
    MatchedIff(OFF, es);
  }

  lemma {:induction false} AloneIsInTime(s: State, es: seq<Event>)
    requires PlayingInLoop(s) && s.vmChecked + s.vmMarked == 0 && (s.player.Checked? ==> s.status.Playing?)
    requires IsRun(s, es) && VmCheck !in es
    ensures RunsInTime(s, es)
    decreases |es|
  {
    if es == [] {
    } else {
      AloneIsInTime(Apply(s, es[0]), es[1..]);
    }
  }

  /** Without a pause from the virtual machine starts and stops always match. */
  lemma {:induction false} PlayerAloneMatched(es: seq<Event>)
    requires IsRun(OFF, es) && VmCheck !in es
    ensures AlwaysMatched(OFF, es)
  {
    AloneIsInTime(OFF, es);
    MatchedIff(OFF, es);
  }

  // ---- Two ways in which they do not match ---------------------------------------------------

  lemma RunStep(s: State, e: Event, rest: seq<Event>, last: State)
    requires Enabled(s, e) && IsRun(Apply(s, e), rest) && RunTo(Apply(s, e), rest) == last
    ensures IsRun(s, [e] + rest) && RunTo(s, [e] + rest) == last
  {
    assert ([e] + rest)[1..] == rest;
  }

  /** Both sides see PLAYING, both stop: one start is stopped twice. */
  lemma DoubleStop()
    ensures exists es :: IsRun(OFF, es) && RunTo(OFF, es).starts == 1 && RunTo(OFF, es).stops == 2
  {
    var s1 := Apply(OFF, Initialize);
    var s2 := Apply(s1, Start);
    var s3 := Apply(s2, EnterLoop);
    var s4 := Apply(s3, VmCheck);
    var s5 := Apply(s4, PlayerCheck);
    var s6 := Apply(s5, VmMark);
    var s7 := Apply(s6, VmStop);
    var s8 := Apply(s7, PlayerMark);
    var s9 := Apply(s8, PlayerStop);
    RunStep(s8, PlayerStop, [], s9);
    RunStep(s7, PlayerMark, [PlayerStop], s9);
    var es3 := [VmStop] + ([PlayerMark] + [PlayerStop]);
    RunStep(s6, VmStop, [PlayerMark] + [PlayerStop], s9);
    RunStep(s5, VmMark, es3, s9);
    RunStep(s4, PlayerCheck, [VmMark] + es3, s9);
    var es6 := [VmCheck] + ([PlayerCheck] + ([VmMark] + es3));
    RunStep(s3, VmCheck, [PlayerCheck] + ([VmMark] + es3), s9);
    RunStep(s2, EnterLoop, es6, s9);
    RunStep(s1, Start, [EnterLoop] + es6, s9);
    RunStep(OFF, Initialize, [Start] + ([EnterLoop] + es6), s9);
  }

  /** The next file is started before the pause of the last one stops it: two starts are open, and the stop meant
      for the last file hits the new one. */
  lemma StartBeforeStop()
    ensures exists es :: IsRun(OFF, es) && Strays(OFF, es) == 0 && Owed(RunTo(OFF, es)) == 2
  {
    var s1 := Apply(OFF, Initialize);
    var s2 := Apply(s1, Start);
    var s3 := Apply(s2, EnterLoop);
    var s4 := Apply(s3, VmCheck);
    var s5 := Apply(s4, VmMark);
    var s6 := Apply(s5, PlayerCheck);
    var s7 := Apply(s6, Start);
    RunStep(s6, Start, [], s7);
    RunStep(s5, PlayerCheck, [Start], s7);
    var es2 := [VmMark] + ([PlayerCheck] + [Start]);
    RunStep(s4, VmMark, [PlayerCheck] + [Start], s7);
    RunStep(s3, VmCheck, es2, s7);
    RunStep(s2, EnterLoop, [VmCheck] + es2, s7);
    var es5 := [Start] + ([EnterLoop] + ([VmCheck] + es2));
    RunStep(s1, Start, [EnterLoop] + ([VmCheck] + es2), s7);
    RunStep(OFF, Initialize, es5, s7);
    StopsCounted([Initialize] + es5);
  }

  /** The pause of the virtual machine marks a closed player IDLE, and it is started without being initialized. */
  lemma StartWhenClosed()
    ensures exists es :: IsRun(OFF, es) && !StartsOpen(false, es)
  {
    var s1 := Apply(OFF, Initialize);
    var s2 := Apply(s1, Start);
    var s3 := Apply(s2, EnterLoop);
    var s4 := Apply(s3, VmCheck);
    var s5 := Apply(s4, PlayerCheck);
    var s6 := Apply(s5, PlayerMark);
    var s7 := Apply(s6, PlayerStop);
    var s8 := Apply(s7, Close);
    var s9 := Apply(s8, VmMark);
    var s10 := Apply(s9, Start);
    var es1 := [Close] + ([VmMark] + [Start]);
    var es2 := [PlayerCheck] + ([PlayerMark] + ([PlayerStop] + es1));
    var es3 := [Start] + ([EnterLoop] + ([VmCheck] + es2));
    RunStep(s9, Start, [], s10);
    RunStep(s8, VmMark, [Start], s10);
    RunStep(s7, Close, [VmMark] + [Start], s10);
    RunStep(s6, PlayerStop, es1, s10);
    RunStep(s5, PlayerMark, [PlayerStop] + es1, s10);
    RunStep(s4, PlayerCheck, [PlayerMark] + ([PlayerStop] + es1), s10);
    RunStep(s3, VmCheck, es2, s10);
    RunStep(s2, EnterLoop, [VmCheck] + es2, s10);
    RunStep(s1, Start, [EnterLoop] + ([VmCheck] + es2), s10);
    RunStep(OFF, Initialize, es3, s10);
    ClosedStart(false, [Initialize] + es3);
  }

  /** What a run that ends in a close, a mark and a start says about it. */
  lemma {:induction false} ClosedStart(open: bool, es: seq<Event>)
    requires |es| >= 3 && es[|es| - 3] == Close && !es[|es| - 2].Initialize? && es[|es| - 1] == Start
    ensures !StartsOpen(open, es)
    decreases |es|
  {
    if |es| == 3 {
      assert !StartsOpen(false, es[1..][1..]);
      assert !StartsOpen(false, es[1..]);
    } else {
      ClosedStart(OpenAfter(es[0], open), es[1..]);
    }
  }
}
