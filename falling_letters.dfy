/** The falling-letters race: letters rain down each player's half of the screen and a
    player catches the letters of the target word, in order, by clicking them. Where a letter
    appears, how fast it falls and when it drops off the bottom are floating-point motion;
    here a letter leaves the screen through an explicit step. */
module FallingLettersGame {
  import opened Text
  import opened Types
  import opened Slots

  /** A letter on screen. `targetIndex` is the progress length when it was made and
      `isCorrect` whether it was then the letter the player needed. */
  datatype FallingLetter = FallingLetter(id: string, letter: char, isCorrect: bool, targetIndex: nat)

  /** The random choices behind one new letter: its id, whether the 40% chance of a correct
      letter came up, and the alphabet position drawn for a random one. */
  datatype LetterDraw = LetterDraw(id: string, lucky: bool, pick: nat)

  predicate ValidDraw(d: LetterDraw) { d.pick < 26 }

  /** One player's half: the letters on screen and the letters caught so far. */
  datatype Lane = Lane(letters: seq<FallingLetter>, progress: string)

  /** A new letter for a player whose progress is `progress`: with luck and while letters
      remain it is the next letter of the word, otherwise a random capital. */
  function NewLetter(target: string, progress: string, d: LetterDraw): (l: FallingLetter)
    requires ValidDraw(d)
    ensures l.id == d.id && l.targetIndex == |progress|
    ensures l.isCorrect <==> |progress| < |target| && l.letter == target[|progress|]
    ensures d.lucky && |progress| < |target| ==> l.letter == target[|progress|] && l.isCorrect
    ensures !(d.lucky && |progress| < |target|) ==> l.letter == AlphabetLetter(d.pick)
  {
    var next := |progress|;
    var c := if d.lucky && next < |target| then target[next] else AlphabetLetter(d.pick);
    FallingLetter(d.id, c, next < |target| && c == target[next], next)
  }

  function IdIs(id: string): FallingLetter -> bool
  {
    (l: FallingLetter) => l.id == id
  }

  function IdIsNot(id: string): FallingLetter -> bool
  {
    (l: FallingLetter) => l.id != id
  }

  /** The letter a click on `id` finds: the first one with that id. */
  function Clicked(lane: Lane, id: string): Option<FallingLetter>
  {
    match FindFirst(lane.letters, IdIs(id))
    case None => None
    case Some(k) => Some(lane.letters[k])
  }

  /** The clicked letter is the one the word needs next. */
  predicate Catches(lane: Lane, target: string, id: string)
  {
    var l := Clicked(lane, id);
    l.Some? && |lane.progress| < |target| && l.value.letter == target[|lane.progress|]
  }

  /** A click on `id`: no letter with that id, nothing happens; the next letter of the word
      is caught (added to the progress and taken off the screen); any other letter is just
      taken off the screen. */
  function Click(lane: Lane, target: string, id: string): (r: Lane)
    ensures Clicked(lane, id).None? ==> r == lane
    ensures Clicked(lane, id).Some? ==> r.letters == Filter(lane.letters, IdIsNot(id))
    ensures Catches(lane, target, id) ==> r.progress == lane.progress + [target[|lane.progress|]]
    ensures !Catches(lane, target, id) ==> r.progress == lane.progress
  {
    match Clicked(lane, id)
    case None => lane
    case Some(l) =>
      var rest := Filter(lane.letters, IdIsNot(id));
      if |lane.progress| < |target| && l.letter == target[|lane.progress|] then
        Lane(rest, lane.progress + [l.letter])
      else Lane(rest, lane.progress)
  }

  /** What has been caught is always the start of the word. */
  predicate LaneOk(lane: Lane, target: string)
  {
    lane.progress <= target
  }

  lemma ClickKeeps(lane: Lane, target: string, id: string)
    requires LaneOk(lane, target)
    ensures LaneOk(Click(lane, target, id), target)
    ensures |Click(lane, target, id).progress| == |target| <==>
      |lane.progress| == |target| || (Catches(lane, target, id) && |lane.progress| + 1 == |target|)
  {
    var r := Click(lane, target, id);
    if Catches(lane, target, id) {
      assert r.progress == target[..|lane.progress| + 1];
    }
  }

  /** A caught word is the whole word. */
  lemma FullProgressIsWord(lane: Lane, target: string)
    requires LaneOk(lane, target) && |lane.progress| == |target|
    ensures lane.progress == target
  {
  }

  /** Sending the word: reported once, by the click that catches its last letter. */
  function Reported(side: Side, lane: Lane, target: string, id: string): (r: seq<(Side, string)>)
    ensures r != [] <==> Catches(lane, target, id) && |lane.progress| + 1 == |target|
    ensures r != [] ==> r == [(side, target)]
  {
    if Catches(lane, target, id) && |lane.progress| + 1 == |target| then [(side, target)] else []
  }

  class FallingLetters {
    /** The level's word in capitals. */
    var target: string
    var lane1: Lane
    var lane2: Lane
    var gameStarted: bool
    /** The one-second start timer set when the screen first appears. */
    var startPending: bool
    /** The answers reported through `onPlayer1Answer` / `onPlayer2Answer`, in order. */
    var answers: seq<(Side, string)>

    function LaneOf(side: Side): Lane
      reads this
    {
      if side == One then lane1 else lane2
    }

    predicate Valid()
      reads this
    {
      LaneOk(lane1, target) && LaneOk(lane2, target)
    }

    constructor(level: QuizLevel)
      ensures Valid()
      ensures target == ToUpper(level.targetWord)
      ensures lane1 == Lane([], []) && lane2 == Lane([], [])
      ensures !gameStarted && startPending && answers == []
    {
      target := ToUpper(level.targetWord);
      lane1 := Lane([], []);
      lane2 := Lane([], []);
      gameStarted := false;
      startPending := true;
      answers := [];
    }

    /** The start timer fires. */
    method Start()
      requires Valid() && startPending
      modifies this
      ensures Valid()
      ensures gameStarted && !startPending
      ensures target == old(target) && lane1 == old(lane1) && lane2 == old(lane2) && answers == old(answers)
    {
      gameStarted := true;
      startPending := false;
    }

    /** One tick of the spawn interval, which runs only once the game has started and while
        input is enabled: each player gets one new letter, made from their own progress. */
    method Spawn(disabled: bool, d1: LetterDraw, d2: LetterDraw)
      requires Valid() && ValidDraw(d1) && ValidDraw(d2)
      modifies this
      ensures Valid()
      ensures !gameStarted || disabled ==> lane1 == old(lane1) && lane2 == old(lane2)
      ensures gameStarted && !disabled ==>
        lane1 == old(Lane(lane1.letters + [NewLetter(target, lane1.progress, d1)], lane1.progress))
        && lane2 == old(Lane(lane2.letters + [NewLetter(target, lane2.progress, d2)], lane2.progress))
      ensures target == old(target) && gameStarted == old(gameStarted)
      ensures startPending == old(startPending) && answers == old(answers)
    {
      if !gameStarted || disabled {
        return;
      }
      lane1 := Lane(lane1.letters + [NewLetter(target, lane1.progress, d1)], lane1.progress);
      lane2 := Lane(lane2.letters + [NewLetter(target, lane2.progress, d2)], lane2.progress);
    }

    /** The `k`-th letter on `side` falls past the bottom of the screen (only while the
        animation runs: started and enabled). */
    method FallOff(side: Side, k: nat, disabled: bool)
      requires Valid()
      modifies this
      ensures Valid()
      ensures gameStarted && !disabled && k < |old(LaneOf(side)).letters| ==>
        LaneOf(side) == old(Lane(LaneOf(side).letters[..k] + LaneOf(side).letters[k + 1..], LaneOf(side).progress))
      ensures !(gameStarted && !disabled && k < |old(LaneOf(side)).letters|) ==> LaneOf(side) == old(LaneOf(side))
      ensures LaneOf(side.Other()) == old(LaneOf(side.Other()))
      ensures target == old(target) && gameStarted == old(gameStarted)
      ensures startPending == old(startPending) && answers == old(answers)
    {
      if !gameStarted || disabled {
        return;
      }
      var lane := LaneOf(side);
      if k < |lane.letters| {
        var nl := Lane(lane.letters[..k] + lane.letters[k + 1..], lane.progress);
        if side == One { lane1 := nl; } else { lane2 := nl; }
      }
    }

    /** A click on the letter `id` on `side`; ignored while input is disabled. */
    method ClickLetter(side: Side, id: string, disabled: bool)
      requires Valid()
      modifies this
      ensures Valid()
      ensures LaneOf(side) == (if disabled then old(LaneOf(side)) else Click(old(LaneOf(side)), target, id))
      ensures LaneOf(side.Other()) == old(LaneOf(side.Other()))
      ensures answers == old(answers) + (if disabled then [] else Reported(side, old(LaneOf(side)), target, id))
      ensures target == old(target) && gameStarted == old(gameStarted) && startPending == old(startPending)
    {
      if disabled {
        return;
      }
      var lane := LaneOf(side);
      var nl := Click(lane, target, id);
      ClickKeeps(lane, target, id);
      answers := answers + Reported(side, lane, target, id);
      if side == One { lane1 := nl; } else { lane2 := nl; }
    }

    /** A new level: both halves are cleared and the game stops. The start timer is not set
        again. */
    method ChangeLevel(level: QuizLevel)
      modifies this
      ensures Valid()
      ensures target == ToUpper(level.targetWord)
      ensures lane1 == Lane([], []) && lane2 == Lane([], []) && !gameStarted
      ensures startPending == old(startPending) && answers == old(answers)
    {
      target := ToUpper(level.targetWord);
      lane1 := Lane([], []);
      lane2 := Lane([], []);
      gameStarted := false;
    }
  }
}
