/** The bomb race: after a 3-2-1 countdown both players type the word against a 15-second
    fuse; a player still without the word when the fuse runs out explodes. Each timer callback
    is a step: `CountdownTick` and `FuseTick` are one second each. */
module BombGame {
  import opened Text
  import opened Types

  const INITIAL_TIME := 15
  const COUNTDOWN := 3

  datatype TimerColor = Red | Orange | Yellow

  /** The fuse display: red for the last 3 seconds, orange up to 7, yellow above. */
  function TimerColorOf(timeLeft: int): (c: TimerColor)
    ensures c == Red <==> timeLeft <= 3
    ensures c == Orange <==> 3 < timeLeft <= 7
    ensures c == Yellow <==> 7 < timeLeft
  {
    if timeLeft <= 3 then Red else if timeLeft <= 7 then Orange else Yellow
  }

  /** The colour only ever moves towards red as the fuse burns down. */
  lemma TimerColorMonotone(a: int, b: int)
    requires a <= b
    ensures TimerColorOf(b) == Red ==> TimerColorOf(a) == Red
    ensures TimerColorOf(b) == Orange ==> TimerColorOf(a) != Yellow
  {
  }

  /** A player holds the word: their input in capitals is the word. */
  predicate HasWord(input: string, target: string)
  {
    ToUpper(input) == target
  }

  /** The answer check, run whenever an input, a flag or the start changes: every player who
      holds the word and has not exploded reports it, player 1 first. */
  function Reports(target: string, input1: string, input2: string, exploded1: bool, exploded2: bool,
                   started: bool, disabled: bool): seq<(Side, string)>
  {
    if !started || disabled then []
    else
      (if HasWord(input1, target) && !exploded1 then [(One, target)] else [])
      + (if HasWord(input2, target) && !exploded2 then [(Two, target)] else [])
  }

  class Bomb {
    /** The level's word in capitals. */
    var target: string
    var input1: string
    var input2: string
    var timeLeft: int
    var gameStarted: bool
    var exploded1: bool
    var exploded2: bool
    var showCountdown: bool
    var countdown: int
    /** The answers reported through `onPlayer1Answer` / `onPlayer2Answer`, in order. */
    var answers: seq<(Side, string)>

    function InputOf(side: Side): string
      reads this
    {
      if side == One then input1 else input2
    }

    function ExplodedOf(side: Side): bool
      reads this
    {
      if side == One then exploded1 else exploded2
    }

    function CurrentReports(disabled: bool): seq<(Side, string)>
      reads this
    {
      Reports(target, input1, input2, exploded1, exploded2, gameStarted, disabled)
    }

    /** The clocks stay in range, the countdown shows exactly while it runs and the game runs
        exactly once it is over; nobody explodes before the fuse is out, and an exploded
        player never holds the word (their input is frozen from then on). */
    predicate Valid()
      reads this
    {
      0 <= timeLeft <= INITIAL_TIME && 0 <= countdown <= COUNTDOWN
      && showCountdown == (countdown > 0) && gameStarted == !showCountdown
      && (exploded1 || exploded2 ==> timeLeft == 0)
      && (exploded1 ==> !HasWord(input1, target))
      && (exploded2 ==> !HasWord(input2, target))
    }

    constructor(level: QuizLevel)
      ensures Valid()
      ensures target == ToUpper(level.targetWord) && input1 == "" && input2 == ""
      ensures timeLeft == INITIAL_TIME && !gameStarted && !exploded1 && !exploded2
      ensures showCountdown && countdown == COUNTDOWN && answers == []
    {
      target := ToUpper(level.targetWord);
      input1 := "";
      input2 := "";
      timeLeft := INITIAL_TIME;
      gameStarted := false;
      exploded1 := false;
      exploded2 := false;
      showCountdown := true;
      countdown := COUNTDOWN;
      answers := [];
    }

    /** One second of the countdown. Reaching 0 hides it and starts the game, which runs the
        answer check once. */
    method CountdownTick(disabled: bool)
      requires Valid()
      modifies this
      ensures Valid()
      ensures old(countdown) == 0 ==> countdown == 0 && gameStarted == old(gameStarted) && answers == old(answers)
      ensures old(countdown) > 1 ==> countdown == old(countdown) - 1 && !gameStarted && answers == old(answers)
      ensures old(countdown) == 1 ==>
        countdown == 0 && gameStarted && !showCountdown && answers == old(answers) + CurrentReports(disabled)
      ensures target == old(target) && input1 == old(input1) && input2 == old(input2)
      ensures timeLeft == old(timeLeft) && exploded1 == old(exploded1) && exploded2 == old(exploded2)
    {
      if countdown > 0 {
        countdown := countdown - 1;
        if countdown == 0 {
          showCountdown := false;
          gameStarted := true;
          answers := answers + CurrentReports(disabled);
        }
      }
    }

    /** One second of the fuse, which burns only while the game runs and input is enabled.
        Above 1 it counts down; at 1 or 0 it is out: it shows 0, and exactly the players who
        have not exploded and do not hold the word explode. A change of flags reruns the
        answer check. */
    method FuseTick(disabled: bool)
      requires Valid()
      modifies this
      ensures Valid()
      ensures !gameStarted || disabled ==>
        timeLeft == old(timeLeft)
        && exploded1 == old(exploded1) && exploded2 == old(exploded2) && answers == old(answers)
      ensures gameStarted && !disabled && old(timeLeft) > 1 ==>
        timeLeft == old(timeLeft) - 1
        && exploded1 == old(exploded1) && exploded2 == old(exploded2) && answers == old(answers)
      ensures gameStarted && !disabled && old(timeLeft) <= 1 ==>
        timeLeft == 0
        && exploded1 == (old(exploded1) || !HasWord(input1, target))
        && exploded2 == (old(exploded2) || !HasWord(input2, target))
        && answers == old(answers) +
             (if exploded1 != old(exploded1) || exploded2 != old(exploded2) then CurrentReports(disabled) else [])
      ensures target == old(target) && input1 == old(input1) && input2 == old(input2)
      ensures gameStarted == old(gameStarted) && countdown == old(countdown) && showCountdown == old(showCountdown)
    {
      if !gameStarted || disabled {
        return;
      }
      if timeLeft <= 1 {
        var flagsChanged := false;
        if !exploded1 && !HasWord(input1, target) {
          exploded1 := true;
          flagsChanged := true;
        }
        if !exploded2 && !HasWord(input2, target) {
          exploded2 := true;
          flagsChanged := true;
        }
        timeLeft := 0;
        if flagsChanged {
          answers := answers + CurrentReports(disabled);
        }
      } else {
        timeLeft := timeLeft - 1;
      }
    }

    /** A player edits their input; the field takes input only while the game runs, input is
        enabled and the player has not exploded. A changed input reruns the answer check, which
        reports every player (on either side) who holds the word. */
    method Type(side: Side, value: string, disabled: bool)
      requires Valid()
      modifies this
      ensures Valid()
      ensures disabled || !gameStarted || old(ExplodedOf(side)) || value == old(InputOf(side)) ==>
        input1 == old(input1) && input2 == old(input2) && answers == old(answers)
      ensures !(disabled || !gameStarted || old(ExplodedOf(side)) || value == old(InputOf(side))) ==>
        InputOf(side) == value && InputOf(side.Other()) == old(InputOf(side.Other()))
        && answers == old(answers) + CurrentReports(disabled)
      ensures target == old(target) && timeLeft == old(timeLeft) && gameStarted == old(gameStarted)
      ensures exploded1 == old(exploded1) && exploded2 == old(exploded2)
      ensures countdown == old(countdown) && showCountdown == old(showCountdown)
    {
      if disabled || !gameStarted || ExplodedOf(side) || value == InputOf(side) {
        return;
      }
      if side == One { input1 := value; } else { input2 := value; }
      answers := answers + CurrentReports(disabled);
    }

    /** A new level: inputs cleared, the fuse back to 15, nobody exploded and the countdown
        back at 3. */
    method ChangeLevel(level: QuizLevel)
      modifies this
      ensures Valid()
      ensures target == ToUpper(level.targetWord) && input1 == "" && input2 == ""
      ensures timeLeft == INITIAL_TIME && !gameStarted && !exploded1 && !exploded2
      ensures showCountdown && countdown == COUNTDOWN && answers == old(answers)
    {
      target := ToUpper(level.targetWord);
      input1 := "";
      input2 := "";
      timeLeft := INITIAL_TIME;
      gameStarted := false;
      exploded1 := false;
      exploded2 := false;
      showCountdown := true;
      countdown := COUNTDOWN;
    }
  }

  /** The answer check reports exactly the intact players who hold the word, each once, and
      only while the game runs with input enabled. */
  lemma ReportsAreIntact(target: string, input1: string, input2: string, exploded1: bool, exploded2: bool,
                         started: bool, disabled: bool)
    ensures var r := Reports(target, input1, input2, exploded1, exploded2, started, disabled);
      && |r| <= 2
      && (!started || disabled ==> r == [])
      && (forall k :: 0 <= k < |r| ==> r[k].1 == target)
      && ((One, target) in r <==> started && !disabled && HasWord(input1, target) && !exploded1)
      && ((Two, target) in r <==> started && !disabled && HasWord(input2, target) && !exploded2)
      && (|r| == 2 ==> r[0].0 == One && r[1].0 == Two)
  {
  }
}
