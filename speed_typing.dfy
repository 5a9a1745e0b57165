/** The speed-typing race: after a 3-2-1 countdown the word is shown and both players type it;
    every change that leaves an input equal to the word, ignoring case, reports that input as
    the player's answer. Each letter box under an input shows whether the typed letter matches. */
module SpeedTypingGame {
  import opened Text
  import opened Types

  const COUNTDOWN := 3

  datatype CharStatus = Match | Wrong | Blank

  /** The box under position `i` of the word: the typed letter matches (ignoring case), a
      different letter is typed there, or nothing is typed there yet. */
  function StatusAt(input: string, word: string, i: nat): (s: CharStatus)
    requires i < |word|
    ensures s == Match <==> i < |input| && LowerChar(input[i]) == LowerChar(word[i])
    ensures s == Wrong <==> i < |input| && LowerChar(input[i]) != LowerChar(word[i])
    ensures s == Blank <==> |input| <= i
  {
    if i < |input| && LowerChar(input[i]) == LowerChar(word[i]) then Match
    else if i < |input| then Wrong
    else Blank
  }

  /** A player's input is the word, ignoring case. */
  predicate Typed(input: string, word: string)
  {
    ToLower(input) == ToLower(word)
  }

  /** An input is the word exactly when it is as long as the word and every box shows a
      match. */
  lemma TypedIffAllMatch(input: string, word: string)
    ensures Typed(input, word) <==>
      |input| == |word| && forall i :: 0 <= i < |word| ==> StatusAt(input, word, i) == Match
  {
    if |input| == |word| && forall i :: 0 <= i < |word| ==> StatusAt(input, word, i) == Match {
      forall i | 0 <= i < |word| ensures ToLower(input)[i] == ToLower(word)[i] {
        assert StatusAt(input, word, i) == Match;
      }
    }
    if Typed(input, word) {
      assert |ToLower(input)| == |input| && |ToLower(word)| == |word|;
      forall i | 0 <= i < |word| ensures StatusAt(input, word, i) == Match {
        assert ToLower(input)[i] == ToLower(word)[i];
      }
    }
  }

  /** The answer check, run whenever an input or the start changes: each player whose input is
      the word reports their input as typed, player 1 first. */
  function Reports(word: string, input1: string, input2: string, started: bool, disabled: bool)
    : seq<(Side, string)>
  {
    if !started || disabled then []
    else
      (if Typed(input1, word) then [(One, input1)] else [])
      + (if Typed(input2, word) then [(Two, input2)] else [])
  }

  /** Nothing is reported before the start or while input is disabled; after the start a
      player is reported exactly when their input is the word, with exactly that input. */
  lemma ReportsOnlyTyped(word: string, input1: string, input2: string, started: bool, disabled: bool)
    ensures var r := Reports(word, input1, input2, started, disabled);
      && |r| <= 2
      && (!started || disabled ==> r == [])
      && ((One, input1) in r <==> started && !disabled && Typed(input1, word))
      && ((Two, input2) in r <==> started && !disabled && Typed(input2, word))
      && (forall k :: 0 <= k < |r| ==> Typed(r[k].1, word))
  {
  }

  class SpeedTyping {
    /** The level's word, as the level spells it. */
    var word: string
    var input1: string
    var input2: string
    var countdown: int
    var gameStarted: bool
    var showWord: bool
    /** The answers reported through `onPlayer1Answer` / `onPlayer2Answer`, in order. */
    var answers: seq<(Side, string)>

    function InputOf(side: Side): string
      reads this
    {
      if side == One then input1 else input2
    }

    function CurrentReports(disabled: bool): seq<(Side, string)>
      reads this
    {
      Reports(word, input1, input2, gameStarted, disabled)
    }

    /** The game runs, and the word shows, exactly once the countdown is over. */
    predicate Valid()
      reads this
    {
      0 <= countdown <= COUNTDOWN && gameStarted == (countdown == 0) && showWord == gameStarted
    }

    constructor(level: QuizLevel)
      ensures Valid()
      ensures word == level.targetWord && input1 == "" && input2 == ""
      ensures countdown == COUNTDOWN && !gameStarted && !showWord && answers == []
    {
      word := level.targetWord;
      input1 := "";
      input2 := "";
      countdown := COUNTDOWN;
      gameStarted := false;
      showWord := false;
      answers := [];
    }

    /** One second of the countdown; reaching 0 starts the game, shows the word and runs the
        answer check once. */
    method CountdownTick(disabled: bool)
      requires Valid()
      modifies this
      ensures Valid()
      ensures old(countdown) == 0 ==> countdown == 0 && answers == old(answers)
      ensures old(countdown) > 1 ==> countdown == old(countdown) - 1 && !gameStarted && answers == old(answers)
      ensures old(countdown) == 1 ==>
        countdown == 0 && gameStarted && showWord && answers == old(answers) + CurrentReports(disabled)
      ensures word == old(word) && input1 == old(input1) && input2 == old(input2)
    {
      if countdown > 0 {
        countdown := countdown - 1;
        if countdown == 0 {
          gameStarted := true;
          showWord := true;
          answers := answers + CurrentReports(disabled);
        }
      }
    }

    /** A player edits their input; the field takes input only once the game runs and while
        input is enabled. A changed input reruns the answer check. */
    method Type(side: Side, value: string, disabled: bool)
      requires Valid()
      modifies this
      ensures Valid()
      ensures disabled || !gameStarted || value == old(InputOf(side)) ==>
        input1 == old(input1) && input2 == old(input2) && answers == old(answers)
      ensures !(disabled || !gameStarted || value == old(InputOf(side))) ==>
        InputOf(side) == value && InputOf(side.Other()) == old(InputOf(side.Other()))
        && answers == old(answers) + CurrentReports(disabled)
      ensures word == old(word) && countdown == old(countdown)
      ensures gameStarted == old(gameStarted) && showWord == old(showWord)
    {
      if disabled || !gameStarted || value == InputOf(side) {
        return;
      }
      if side == One { input1 := value; } else { input2 := value; }
      answers := answers + CurrentReports(disabled);
    }

    /** A new level: both inputs cleared, the word hidden and the countdown back at 3. */
    method ChangeLevel(level: QuizLevel)
      modifies this
      ensures Valid()
      ensures word == level.targetWord && input1 == "" && input2 == ""
      ensures countdown == COUNTDOWN && !gameStarted && !showWord && answers == old(answers)
    {
      word := level.targetWord;
      input1 := "";
      input2 := "";
      countdown := COUNTDOWN;
      gameStarted := false;
      showWord := false;
    }
  }
}
