/** The listening race: the word is spoken aloud, up to three times, and both players type what
    they heard and submit it. After three complete playbacks the word is shown as a hint. The
    speech engine is outside the model: a playback's end and its failure are explicit steps. */
module ListeningGame {
  import opened Text
  import opened Types

  const MAX_PLAYS := 3

  /** A submission is right when the typed text, lower-cased and trimmed, is the word in lower
      case. */
  predicate Heard(input: string, word: string)
  {
    Trim(ToLower(input)) == ToLower(word)
  }

  /** Right answers ignore surrounding white space and case: trimming and lower-casing the
      input first changes nothing. */
  lemma HeardIgnoresSpaceAndCase(input: string, word: string)
    ensures Heard(input, word) <==> ToLower(Trim(input)) == ToLower(word)
    ensures Heard(input, word) <==> Heard(Trim(input), word)
  {
    TrimLowerCommute(input);
    TrimLowerCommute(Trim(input));
    TrimEnds(input);
    TrimNoop(Trim(input));
  }

  class Listening {
    /** The level's word, as the level spells it. */
    var word: string
    var input1: string
    var input2: string
    var isPlaying: bool
    var playCount: int
    var showHint: bool
    /** The one-second timer that plays the word after a level starts. */
    var autoPlayPending: bool
    /** The answers reported through `onPlayer1Answer` / `onPlayer2Answer`, in order. */
    var answers: seq<(Side, string)>

    function InputOf(side: Side): string
      reads this
    {
      if side == One then input1 else input2
    }

    /** The hint shows exactly once three playbacks have ended. */
    predicate Valid()
      reads this
    {
      playCount >= 0 && showHint == (playCount >= MAX_PLAYS)
    }

    constructor(level: QuizLevel)
      ensures Valid()
      ensures word == level.targetWord && input1 == "" && input2 == ""
      ensures !isPlaying && playCount == 0 && !showHint && autoPlayPending && answers == []
    {
      word := level.targetWord;
      input1 := "";
      input2 := "";
      isPlaying := false;
      playCount := 0;
      showHint := false;
      autoPlayPending := true;
      answers := [];
    }

    /** `speak`: ignored while a playback is running, otherwise one starts. */
    method Speak()
      requires Valid()
      modifies this
      ensures Valid()
      ensures isPlaying
      ensures word == old(word) && input1 == old(input1) && input2 == old(input2)
      ensures playCount == old(playCount) && showHint == old(showHint)
      ensures autoPlayPending == old(autoPlayPending) && answers == old(answers)
    {
      if isPlaying {
        return;
      }
      isPlaying := true;
    }

    /** The automatic playback after a level starts. */
    method AutoPlay()
      requires Valid() && autoPlayPending
      modifies this
      ensures Valid()
      ensures isPlaying && !autoPlayPending
      ensures word == old(word) && input1 == old(input1) && input2 == old(input2)
      ensures playCount == old(playCount) && showHint == old(showHint) && answers == old(answers)
    {
      autoPlayPending := false;
      Speak();
    }

    /** The speaker button: it is disabled while a playback runs and after three plays. */
    method ClickSpeaker()
      requires Valid()
      modifies this
      ensures Valid()
      ensures old(isPlaying) || old(playCount) >= MAX_PLAYS ==> isPlaying == old(isPlaying)
      ensures !old(isPlaying) && old(playCount) < MAX_PLAYS ==> isPlaying
      ensures word == old(word) && input1 == old(input1) && input2 == old(input2)
      ensures playCount == old(playCount) && showHint == old(showHint)
      ensures autoPlayPending == old(autoPlayPending) && answers == old(answers)
    {
      if isPlaying || playCount >= MAX_PLAYS {
        return;
      }
      Speak();
    }

    /** The space bar outside the inputs replays the word while fewer than three plays have
        ended; every key is ignored while input is disabled. */
    method SpaceKey(inInput: bool, disabled: bool)
      requires Valid()
      modifies this
      ensures Valid()
      ensures disabled || inInput || old(playCount) >= MAX_PLAYS ==> isPlaying == old(isPlaying)
      ensures !disabled && !inInput && old(playCount) < MAX_PLAYS ==> isPlaying
      ensures word == old(word) && input1 == old(input1) && input2 == old(input2)
      ensures playCount == old(playCount) && showHint == old(showHint)
      ensures autoPlayPending == old(autoPlayPending) && answers == old(answers)
    {
      if disabled || inInput {
        return;
      }
      if playCount < MAX_PLAYS {
        Speak();
      }
    }

    /** A playback ends: one more play counts, and the third shows the hint. */
    method SpeechEnd()
      requires Valid()
      modifies this
      ensures Valid()
      ensures !isPlaying && playCount == old(playCount) + 1
      ensures showHint == (playCount >= MAX_PLAYS)
      ensures word == old(word) && input1 == old(input1) && input2 == old(input2)
      ensures autoPlayPending == old(autoPlayPending) && answers == old(answers)
    {
      isPlaying := false;
      playCount := playCount + 1;
      if playCount >= MAX_PLAYS {
        showHint := true;
      }
    }

    /** A playback fails: it stops, and does not count. */
    method SpeechError()
      requires Valid()
      modifies this
      ensures Valid()
      ensures !isPlaying && playCount == old(playCount) && showHint == old(showHint)
      ensures word == old(word) && input1 == old(input1) && input2 == old(input2)
      ensures autoPlayPending == old(autoPlayPending) && answers == old(answers)
    {
      isPlaying := false;
    }

    /** A player edits their input (the field is disabled while input is). */
    method Type(side: Side, value: string, disabled: bool)
      requires Valid()
      modifies this
      ensures Valid()
      ensures InputOf(side) == (if disabled then old(InputOf(side)) else value)
      ensures InputOf(side.Other()) == old(InputOf(side.Other()))
      ensures word == old(word) && isPlaying == old(isPlaying) && playCount == old(playCount)
      ensures showHint == old(showHint) && autoPlayPending == old(autoPlayPending) && answers == old(answers)
    {
      if disabled {
        return;
      }
      if side == One { input1 := value; } else { input2 := value; }
    }

    /** A player submits. Blank input, or input while disabled, is ignored. A right answer is
        reported, trimmed; a wrong one clears that player's input and nothing else. */
    method Submit(side: Side, disabled: bool)
      requires Valid()
      modifies this
      ensures Valid()
      ensures Trim(old(InputOf(side))) == [] || disabled ==>
        input1 == old(input1) && input2 == old(input2) && answers == old(answers)
      ensures Trim(old(InputOf(side))) != [] && !disabled && Heard(old(InputOf(side)), word) ==>
        input1 == old(input1) && input2 == old(input2)
        && answers == old(answers) + [(side, Trim(old(InputOf(side))))]
      ensures Trim(old(InputOf(side))) != [] && !disabled && !Heard(old(InputOf(side)), word) ==>
        InputOf(side) == "" && InputOf(side.Other()) == old(InputOf(side.Other()))
        && answers == old(answers)
      ensures word == old(word) && isPlaying == old(isPlaying) && playCount == old(playCount)
      ensures showHint == old(showHint) && autoPlayPending == old(autoPlayPending)
    {
      var input := InputOf(side);
      if Trim(input) == [] || disabled {
        return;
      }
      if Heard(input, word) {
        answers := answers + [(side, Trim(input))];
      } else if side == One {
        input1 := "";
      } else {
        input2 := "";
      }
    }

    /** A new level: both inputs cleared, the play count back to 0, the hint hidden and the
        automatic playback set again. */
    method ChangeLevel(level: QuizLevel)
      modifies this
      ensures Valid()
      ensures word == level.targetWord && input1 == "" && input2 == ""
      ensures playCount == 0 && !showHint && autoPlayPending
      ensures isPlaying == old(isPlaying) && answers == old(answers)
    {
      word := level.targetWord;
      input1 := "";
      input2 := "";
      playCount := 0;
      showHint := false;
      autoPlayPending := true;
    }
  }

  /** A replay can only start while fewer than three plays have ended: a count of three or more
      leaves the speaker button and the space bar without effect. */
  method CappedReplay(l: Listening, inInput: bool, disabled: bool)
    requires l.Valid() && l.playCount >= MAX_PLAYS && !l.isPlaying
    modifies l
    ensures !l.isPlaying && l.showHint
  {
    l.ClickSpeaker();
    l.SpaceKey(inInput, disabled);
  }
}
