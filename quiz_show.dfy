/** The quiz show: several players on one screen answer multiple-choice questions against a
    15-second clock. A reveal scores every player whose last answer is the correct option with
    a time bonus, then (after a pause) moves to the next question or to the result screen.
    The screen's timers are explicit steps: `Tick` is one second of the clock, and the two
    delayed callbacks a selection and a reveal schedule wait in queues until fired. */
module QuizShowScreen {
  import opened Text

  /** Seconds on the clock at the start of every question. */
  const QUESTION_TIME := 15

  /** The `correctIndex` of each built-in question, in order. */
  const SAMPLE_ANSWERS: seq<int> := [2, 1, 2, 2, 3]

  datatype Phase = Intro | Playing | Revealing | Result

  datatype QuizPlayer = QuizPlayer(
    id: nat,
    score: int,
    isAnswering: bool,
    lastAnswer: Option<int>,
    isCorrect: Option<bool>,
    streak: nat)

  /** A reveal waiting on its one-second timer, with what its callback captured when the
      selection was made: the current question's correct option, the clock and the index. */
  datatype PendingReveal = PendingReveal(correct: int, timeLeft: int, index: nat)

  /** Players `1 .. n`, all at zero with nothing answered. */
  function FreshPlayers(n: nat): (r: seq<QuizPlayer>)
    ensures |r| == n
    ensures forall i :: 0 <= i < n ==>
      r[i] == QuizPlayer(i + 1, 0, false, None, None, 0)
  {
    seq(n, i requires 0 <= i < n => QuizPlayer(i + 1, 0, false, None, None, 0))
  }

  /** The points a correct answer earns on a reveal. */
  function Bonus(timeLeft: int): int
  {
    10 + timeLeft
  }

  /** One player at a reveal. */
  function ScoredPlayer(p: QuizPlayer, correct: int, bonus: int): QuizPlayer
  {
    var ok := p.lastAnswer == Some(correct);
    p.(isCorrect := Some(ok),
       score := if ok then p.score + bonus else p.score,
       streak := if ok then p.streak + 1 else 0)
  }

  /** Every player at a reveal: a player whose last answer is the correct option gains the
      bonus and extends their streak; every other player keeps their score and loses their
      streak. Nothing else about a player changes. */
  function Scored(ps: seq<QuizPlayer>, correct: int, bonus: int): (r: seq<QuizPlayer>)
    ensures |r| == |ps|
    ensures forall i :: 0 <= i < |ps| ==>
      r[i].id == ps[i].id && r[i].lastAnswer == ps[i].lastAnswer
      && r[i].isAnswering == ps[i].isAnswering
      && (ps[i].lastAnswer == Some(correct) ==>
            r[i].isCorrect == Some(true) && r[i].score == ps[i].score + bonus
            && r[i].streak == ps[i].streak + 1)
      && (ps[i].lastAnswer != Some(correct) ==>
            r[i].isCorrect == Some(false) && r[i].score == ps[i].score && r[i].streak == 0)
    decreases |ps|
  {
    if ps == [] then [] else [ScoredPlayer(ps[0], correct, bonus)] + Scored(ps[1..], correct, bonus)
  }

  function TotalScore(ps: seq<QuizPlayer>): int
    decreases |ps|
  {
    if ps == [] then 0 else ps[0].score + TotalScore(ps[1..])
  }

  /** How many players answered `correct`. */
  function CorrectCount(ps: seq<QuizPlayer>, correct: int): nat
    decreases |ps|
  {
    if ps == [] then 0
    else (if ps[0].lastAnswer == Some(correct) then 1 else 0) + CorrectCount(ps[1..], correct)
  }

  /** A reveal hands out exactly one bonus per correct player and no other points. */
  lemma {:induction false} ScoredTotal(ps: seq<QuizPlayer>, correct: int, bonus: int)
    ensures TotalScore(Scored(ps, correct, bonus)) == TotalScore(ps) + bonus * CorrectCount(ps, correct)
    decreases |ps|
  {
    if ps != [] {
      ScoredTotal(ps[1..], correct, bonus);
      assert Scored(ps, correct, bonus)[1..] == Scored(ps[1..], correct, bonus);
    }
  }

  /** A selection records the answer for player 1 and leaves everyone else alone. */
  function Answered(ps: seq<QuizPlayer>, option: int): (r: seq<QuizPlayer>)
    ensures |r| == |ps|
    ensures |ps| > 0 ==> r[0] == ps[0].(lastAnswer := Some(option), isAnswering := true)
    ensures |ps| > 0 ==> r[1..] == ps[1..]
  {
    if ps == [] then [] else [ps[0].(lastAnswer := Some(option), isAnswering := true)] + ps[1..]
  }

  /** The next question: every answer and verdict is cleared, scores and streaks stay. */
  function Cleared(ps: seq<QuizPlayer>): (r: seq<QuizPlayer>)
    ensures |r| == |ps|
    ensures forall i :: 0 <= i < |ps| ==>
      r[i] == ps[i].(lastAnswer := None, isCorrect := None)
  {
    seq(|ps|, i requires 0 <= i < |ps| => ps[i].(lastAnswer := None, isCorrect := None))
  }

  /** Play again: scores, streaks, answers and verdicts back to nothing. */
  function Reset(ps: seq<QuizPlayer>): (r: seq<QuizPlayer>)
    ensures |r| == |ps|
    ensures forall i :: 0 <= i < |ps| ==>
      r[i] == ps[i].(score := 0, streak := 0, lastAnswer := None, isCorrect := None)
  {
    seq(|ps|, i requires 0 <= i < |ps| =>
      ps[i].(score := 0, streak := 0, lastAnswer := None, isCorrect := None))
  }

  lemma {:induction false} ResetTotal(ps: seq<QuizPlayer>)
    ensures TotalScore(Reset(ps)) == 0
    decreases |ps|
  {
    if ps != [] {
      assert Reset(ps)[1..] == Reset(ps[1..]);
      ResetTotal(ps[1..]);
    }
  }

  /** The answer keys: `F1`/`1` to `F4`/`4` choose options 0 to 3. */
  function KeyOption(key: string): Option<nat>
  {
    if key == "F1" || key == "1" then Some(0)
    else if key == "F2" || key == "2" then Some(1)
    else if key == "F3" || key == "3" then Some(2)
    else if key == "F4" || key == "4" then Some(3)
    else None
  }

  /** The function key and the digit key of option `i`. */
  function FKey(i: nat): string requires i < 4 { "F" + [('1' as int + i) as char] }
  function DigitKey(i: nat): string requires i < 4 { [('1' as int + i) as char] }

  /** Exactly the eight answer keys choose an option, and each chooses its own. */
  lemma KeyOptionSpec(key: string)
    ensures KeyOption(key).Some? <==>
      exists i :: 0 <= i < 4 && (key == FKey(i) || key == DigitKey(i))
    ensures forall i :: 0 <= i < 4 ==> KeyOption(FKey(i)) == Some(i) && KeyOption(DigitKey(i)) == Some(i)
    ensures KeyOption(key).Some? ==> key == FKey(KeyOption(key).value) || key == DigitKey(KeyOption(key).value)
  {
    assert FKey(0) == "F1" && FKey(1) == "F2" && FKey(2) == "F3" && FKey(3) == "F4";
    assert DigitKey(0) == "1" && DigitKey(1) == "2" && DigitKey(2) == "3" && DigitKey(3) == "4";
  }

  /** The winner shown on the result screen: the players sorted by score, highest first, by a
      stable sort, then the first one; that is the earliest player with the highest score. */
  function Leader(ps: seq<QuizPlayer>): (r: Option<nat>)
    ensures r.None? <==> ps == []
    ensures r.Some? ==>
      r.value < |ps|
      && (forall j :: 0 <= j < |ps| ==> ps[j].score <= ps[r.value].score)
      && (forall j :: 0 <= j < r.value ==> ps[j].score < ps[r.value].score)
  {
    if ps == [] then None else Some(LeaderFrom(ps, 1, 0))
  }

  /** The earliest highest score among `ps[..i]` is at `best`; carry on from `i`. */
  function LeaderFrom(ps: seq<QuizPlayer>, i: nat, best: nat): (r: nat)
    requires best < i <= |ps|
    requires forall j :: 0 <= j < i ==> ps[j].score <= ps[best].score
    requires forall j :: 0 <= j < best ==> ps[j].score < ps[best].score
    ensures r < |ps|
    ensures forall j :: 0 <= j < |ps| ==> ps[j].score <= ps[r].score
    ensures forall j :: 0 <= j < r ==> ps[j].score < ps[r].score
    decreases |ps| - i
  {
    if i == |ps| then best
    else LeaderFrom(ps, i + 1, if ps[i].score > ps[best].score then i else best)
  }

  class QuizShow {
    /** The correct option of each question. */
    const answers: seq<int>
    const playerCount: nat
    var index: nat
    var players: seq<QuizPlayer>
    var selectedOption: Option<int>
    var correctOption: Option<int>
    var activePlayer: Option<nat>
    var timeLeft: int
    var phase: Phase
    var showGameResult: bool
    var lastBonus: int
    /** Reveals scheduled by selections, each due one second after its selection. */
    var scheduled: seq<PendingReveal>
    /** Question changes scheduled by reveals, each due three seconds after its reveal, with
        the question index its reveal saw. */
    var advances: seq<nat>

    /** The clock stays within one question's time, the players keep their number and ids,
        and no one's score goes below zero. */
    predicate Valid()
      reads this
    {
      0 <= timeLeft <= QUESTION_TIME
      && |players| == playerCount
      && (forall i :: 0 <= i < |players| ==> players[i].id == i + 1 && players[i].score >= 0)
      && (forall k :: 0 <= k < |scheduled| ==> 0 <= scheduled[k].timeLeft <= QUESTION_TIME)
    }

    /** The screen shows `answers[index]`: past the last question it has nothing to show and
        none of its handlers can run. */
    predicate Shown()
      reads this
    {
      index < |answers|
    }

    /** At most four players: each takes one of the four player colours. */
    constructor(playerCount: nat)
      requires playerCount <= 4
      ensures Valid()
      ensures answers == SAMPLE_ANSWERS && this.playerCount == playerCount
      ensures index == 0 && players == FreshPlayers(playerCount)
      ensures selectedOption == None && correctOption == None && activePlayer == None
      ensures timeLeft == QUESTION_TIME && phase == Intro && !showGameResult && lastBonus == 0
      ensures scheduled == [] && advances == []
    {
      answers := SAMPLE_ANSWERS;
      this.playerCount := playerCount;
      index := 0;
      players := FreshPlayers(playerCount);
      selectedOption := None;
      correctOption := None;
      activePlayer := None;
      timeLeft := QUESTION_TIME;
      phase := Intro;
      showGameResult := false;
      lastBonus := 0;
      scheduled := [];
      advances := [];
    }

    /** The start button, or space on the intro. */
    method StartGame()
      requires Valid()
      modifies this
      ensures Valid()
      ensures phase == Playing && timeLeft == QUESTION_TIME
      ensures index == old(index) && players == old(players) && selectedOption == old(selectedOption)
      ensures correctOption == old(correctOption) && activePlayer == old(activePlayer)
      ensures showGameResult == old(showGameResult) && lastBonus == old(lastBonus)
      ensures scheduled == old(scheduled) && advances == old(advances)
    {
      phase := Playing;
      timeLeft := QUESTION_TIME;
    }

    /** The reveal callback with what it captured: the screen turns to revealing, shows the
        correct option and the bonus, scores every player and schedules the question change. */
    method Reveal(r: PendingReveal)
      requires Valid() && 0 <= r.timeLeft <= QUESTION_TIME
      modifies this
      ensures Valid()
      ensures phase == Revealing && correctOption == Some(r.correct) && lastBonus == Bonus(r.timeLeft)
      ensures players == Scored(old(players), r.correct, Bonus(r.timeLeft))
      ensures advances == old(advances) + [r.index]
      ensures index == old(index) && timeLeft == old(timeLeft) && selectedOption == old(selectedOption)
      ensures activePlayer == old(activePlayer) && showGameResult == old(showGameResult)
      ensures scheduled == old(scheduled)
    {
      phase := Revealing;
      correctOption := Some(r.correct);
      lastBonus := Bonus(r.timeLeft);
      players := Scored(players, r.correct, lastBonus);
      advances := advances + [r.index];
    }

    /** One second of the clock: while playing with time left it counts down, and reaching
        zero scheduled the current question with a bonus of 10. In any other phase the clock
        is stopped. */
    method Tick()
      requires Valid() && Shown()
      modifies this
      ensures Valid()
      ensures old(phase) != Playing || old(timeLeft) == 0 ==>
        phase == old(phase) && timeLeft == old(timeLeft) && players == old(players)
        && correctOption == old(correctOption) && lastBonus == old(lastBonus)
        && advances == old(advances)
      ensures old(phase) == Playing && old(timeLeft) > 1 ==>
        phase == Playing && timeLeft == old(timeLeft) - 1 && players == old(players)
        && correctOption == old(correctOption) && lastBonus == old(lastBonus)
        && advances == old(advances)
      ensures old(phase) == Playing && old(timeLeft) == 1 ==>
        timeLeft == 0 && phase == Revealing && correctOption == Some(old(answers[index]))
        && lastBonus == Bonus(0) && players == Scored(old(players), old(answers[index]), Bonus(0))
        && advances == old(advances) + [old(index)]
      ensures index == old(index) && selectedOption == old(selectedOption)
      ensures activePlayer == old(activePlayer) && showGameResult == old(showGameResult)
      ensures scheduled == old(scheduled)
    {
      if phase == Playing && timeLeft > 0 {
        timeLeft := timeLeft - 1;
        if timeLeft == 0 {
          Reveal(PendingReveal(answers[index], 0, index));
        }
      }
    }

    /** Choosing an option. Only while playing: the answer is recorded for player 1 and a
        reveal is scheduled with the question and clock as they are now. Nothing stops a
        second selection from scheduling a second reveal. */
    method Select(option: int)
      requires Valid() && Shown()
      modifies this
      ensures Valid()
      ensures old(phase) != Playing ==>
        players == old(players) && selectedOption == old(selectedOption)
        && activePlayer == old(activePlayer) && scheduled == old(scheduled)
      ensures old(phase) == Playing ==>
        players == Answered(old(players), option) && selectedOption == Some(option)
        && activePlayer == Some(1)
        && scheduled == old(scheduled) + [PendingReveal(old(answers[index]), old(timeLeft), old(index))]
      ensures index == old(index) && timeLeft == old(timeLeft) && phase == old(phase)
      ensures correctOption == old(correctOption) && showGameResult == old(showGameResult)
      ensures lastBonus == old(lastBonus) && advances == old(advances)
    {
      if phase != Playing {
        return;
      }
      selectedOption := Some(option);
      activePlayer := Some(1);
      players := Answered(players, option);
      scheduled := scheduled + [PendingReveal(answers[index], timeLeft, index)];
    }

    /** A key press: space starts the game from the intro; while playing, an answer key
        selects its option; every other key in every other phase is ignored. */
    method KeyDown(key: string)
      requires Valid() && Shown()
      modifies this
      ensures Valid()
      ensures old(phase) == Intro && key == " " ==>
        phase == Playing && timeLeft == QUESTION_TIME && players == old(players)
        && selectedOption == old(selectedOption) && activePlayer == old(activePlayer)
        && scheduled == old(scheduled)
      ensures old(phase) == Playing && KeyOption(key).Some? ==>
        players == Answered(old(players), KeyOption(key).value)
        && selectedOption == Some(KeyOption(key).value) && activePlayer == Some(1)
        && scheduled == old(scheduled) + [PendingReveal(old(answers[index]), old(timeLeft), old(index))]
        && phase == Playing && timeLeft == old(timeLeft)
      ensures !(old(phase) == Intro && key == " ") && !(old(phase) == Playing && KeyOption(key).Some?) ==>
        phase == old(phase) && timeLeft == old(timeLeft) && players == old(players)
        && selectedOption == old(selectedOption) && activePlayer == old(activePlayer)
        && scheduled == old(scheduled)
      ensures index == old(index) && correctOption == old(correctOption)
      ensures advances == old(advances) && lastBonus == old(lastBonus)
      ensures showGameResult == old(showGameResult)
    {
      if phase == Intro && key == " " {
        StartGame();
        return;
      }
      if phase != Playing {
        return;
      }
      var option := KeyOption(key);
      if option.Some? {
        Select(option.value);
      }
    }

    /** The `k`-th scheduled reveal fires. */
    method FireReveal(k: nat)
      requires Valid() && k < |scheduled|
      modifies this
      ensures Valid()
      ensures scheduled == old(scheduled[..k] + scheduled[k + 1..])
      ensures phase == Revealing && correctOption == Some(old(scheduled[k]).correct)
      ensures lastBonus == Bonus(old(scheduled[k]).timeLeft)
      ensures players == Scored(old(players), old(scheduled[k]).correct, Bonus(old(scheduled[k]).timeLeft))
      ensures advances == old(advances) + [old(scheduled[k]).index]
      ensures index == old(index) && timeLeft == old(timeLeft) && selectedOption == old(selectedOption)
      ensures activePlayer == old(activePlayer) && showGameResult == old(showGameResult)
    {
      var r := scheduled[k];
      scheduled := scheduled[..k] + scheduled[k + 1..];
      Reveal(r);
    }

    /** The `k`-th scheduled question change fires. If the question its reveal saw was not the
        last, the screen moves one question on (from wherever it is now) and clears the
        answers; otherwise it shows the result. */
    method FireAdvance(k: nat)
      requires Valid() && k < |advances|
      modifies this
      ensures Valid()
      ensures advances == old(advances[..k] + advances[k + 1..])
      ensures old(advances[k]) < |answers| - 1 ==>
        index == old(index) + 1 && players == Cleared(old(players))
        && selectedOption == None && correctOption == None && activePlayer == None
        && timeLeft == QUESTION_TIME && phase == Playing && showGameResult == old(showGameResult)
      ensures old(advances[k]) >= |answers| - 1 ==>
        index == old(index) && players == old(players)
        && selectedOption == old(selectedOption) && correctOption == old(correctOption)
        && activePlayer == old(activePlayer) && timeLeft == old(timeLeft)
        && phase == Result && showGameResult
      ensures lastBonus == old(lastBonus) && scheduled == old(scheduled)
    {
      var seen := advances[k];
      advances := advances[..k] + advances[k + 1..];
      if seen < |answers| - 1 {
        index := index + 1;
        selectedOption := None;
        correctOption := None;
        activePlayer := None;
        players := Cleared(players);
        timeLeft := QUESTION_TIME;
        phase := Playing;
      } else {
        showGameResult := true;
        phase := Result;
      }
    }

    /** Play again: back to the first question and the intro with every score and streak
        at zero. Timers already scheduled are not cancelled. */
    method PlayAgain()
      requires Valid()
      modifies this
      ensures Valid()
      ensures index == 0 && players == Reset(old(players)) && TotalScore(players) == 0
      ensures selectedOption == None && correctOption == None
      ensures timeLeft == QUESTION_TIME && !showGameResult && phase == Intro
      ensures activePlayer == old(activePlayer) && lastBonus == old(lastBonus)
      ensures scheduled == old(scheduled) && advances == old(advances)
    {
      index := 0;
      players := Reset(players);
      ResetTotal(old(players));
      selectedOption := None;
      correctOption := None;
      timeLeft := QUESTION_TIME;
      showGameResult := false;
      phase := Intro;
    }

    /** The winner on the result screen, as a position in `players`. */
    function Winner(): (r: Option<nat>)
      reads this
      ensures r.Some? ==>
        r.value < |players|
        && forall j :: 0 <= j < |players| ==> players[j].score <= players[r.value].score
      ensures r.None? <==> players == []
    {
      Leader(players)
    }
  }

  /** Two selections of the correct option within the same second schedule two scheduled:
      the one player who answered is paid the bonus twice and the screen is told to move on
      twice. */
  method DoubleSelection() returns (show: QuizShow)
    ensures |show.players| == 1
    ensures show.players[0].score == 2 * Bonus(QUESTION_TIME) && show.players[0].streak == 2
    ensures show.advances == [0, 0]
  {
    show := new QuizShow(1);
    show.StartGame();
    show.Select(SAMPLE_ANSWERS[0]);
    show.Select(SAMPLE_ANSWERS[0]);
    assert show.scheduled == [PendingReveal(2, QUESTION_TIME, 0), PendingReveal(2, QUESTION_TIME, 0)];
    show.FireReveal(0);
    show.FireReveal(0);
  }
}
