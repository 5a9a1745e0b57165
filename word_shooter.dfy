/** The word-shooter race: each player steers a crosshair over a field of balloons, one per
    letter of the word plus five decoys, and pops the letters of the word in order. The
    balloons' floating-point drift and the distance test of a shot are left abstract: a shot
    is given the test that says which balloons are under the crosshair. */
module WordShooterGame {
  import opened Text
  import opened Types
  import opened Slots
  import Shuffle

  /** Balloon ids, built from the clock: `correct-<i>-<clock>` and `wrong-<i>-<clock>`. */
  datatype BalloonId = CorrectId(index: nat, time: int) | WrongId(index: nat, time: int)

  datatype Balloon = Balloon(id: BalloonId, letter: char)

  /** A crosshair position, in percent of the player's half. */
  datatype Crosshair = Crosshair(x: int, y: int)

  const CENTRE := Crosshair(50, 50)
  const STEP := 5

  /** The decoy letters a stream of alphabet draws yields: each draw whose letter is not in the
      word, in order. */
  function Accepted(target: string, picks: seq<nat>): (r: string)
    requires ValidPicks(picks)
    ensures |r| <= |picks|
    decreases |picks|
  {
    if picks == [] then []
    else
      var c := AlphabetLetter(picks[|picks| - 1]);
      Accepted(target, picks[..|picks| - 1]) + (if c !in target then [c] else [])
  }

  /** No decoy letter is a letter of the word. */
  lemma {:induction false} AcceptedAvoidsWord(target: string, picks: seq<nat>)
    requires ValidPicks(picks)
    ensures forall c :: c in Accepted(target, picks) ==> c !in target
    decreases |picks|
  {
    if picks != [] {
      AcceptedAvoidsWord(target, picks[..|picks| - 1]);
    }
  }

  /** One more draw adds its letter to the decoys exactly when the word does not hold it. */
  lemma AcceptedNext(target: string, picks: seq<nat>, n: nat)
    requires ValidPicks(picks) && n < |picks|
    ensures Accepted(target, picks[..n + 1]) == Accepted(target, picks[..n])
      + (if AlphabetLetter(picks[n]) !in target then [AlphabetLetter(picks[n])] else [])
  {
    assert picks[..n + 1][..n] == picks[..n];
  }

  /** The five decoys: each is drawn from the alphabet and drawn again for as long as the word
      contains it. `used` is how many draws that took; the stream must hold five usable draws
      (a word holding all 26 letters would make the loop run forever). */
  method Decoys(target: string, picks: seq<nat>) returns (wrong: string, used: nat)
    requires ValidPicks(picks) && |Accepted(target, picks)| >= 5
    ensures used <= |picks| && wrong == Accepted(target, picks[..used])
    ensures |wrong| == 5
  {
    assert picks[..|picks|] == picks;
    wrong := [];
    used := 0;
    while |wrong| < 5
      invariant used <= |picks| && |wrong| <= 5 && wrong == Accepted(target, picks[..used])
      decreases 5 - |wrong|
    {
      var c := AlphabetLetter(picks[used]);
      AcceptedNext(target, picks, used);
      used := used + 1;
      while c in target
        invariant 0 < used <= |picks| && |wrong| < 5
        invariant Accepted(target, picks[..used]) == wrong + (if c !in target then [c] else [])
        decreases |picks| - used
      {
        c := AlphabetLetter(picks[used]);
        AcceptedNext(target, picks, used);
        used := used + 1;
      }
      wrong := wrong + [c];
    }
  }

  /** The balloons before the shuffle: the word's letters, then the decoys. */
  function BuiltBalloons(target: string, wrong: string, now: int): (r: seq<Balloon>)
    ensures |r| == |target| + |wrong|
    ensures forall i :: 0 <= i < |target| ==> r[i] == Balloon(CorrectId(i, now), target[i])
    ensures forall i :: 0 <= i < |wrong| ==> r[|target| + i] == Balloon(WrongId(i, now), wrong[i])
  {
    seq(|target|, i requires 0 <= i < |target| => Balloon(CorrectId(i, now), target[i]))
    + seq(|wrong|, i requires 0 <= i < |wrong| => Balloon(WrongId(i, now), wrong[i]))
  }

  /** Every balloon is one of the word's letters, at its own position in the word, or a decoy
      letter that the word does not contain. */
  predicate BalloonFits(b: Balloon, target: string)
  {
    match b.id
    case CorrectId(i, _) => i < |target| && b.letter == target[i]
    case WrongId(i, _) => i < 5 && b.letter !in target
  }

  /** A field is the shuffle, by `order`, of the word's letters and the first five decoys
      accepted from `picks`. */
  predicate DealtFrom(balloons: seq<Balloon>, target: string, picks: seq<nat>, order: seq<int>, now: int)
  {
    && ValidPicks(picks) && Shuffle.ValidDraws(order, |target| + 5)
    && exists used :: (0 <= used <= |picks| && |Accepted(target, picks[..used])| == 5
         && balloons == Shuffle.Shuffled(BuiltBalloons(target, Accepted(target, picks[..used]), now), order))
  }

  /** `generateBalloons`, returning also the decoy letters it drew. The array is sorted with a
      random comparator, which leaves it in some order; `order` names that order as the draws
      of a Fisher-Yates pass, which reach every order there is. */
  method GenerateBalloons(target: string, picks: seq<nat>, order: seq<int>, now: int)
    returns (balloons: seq<Balloon>, wrong: string)
    requires ValidPicks(picks) && |Accepted(target, picks)| >= 5
    requires Shuffle.ValidDraws(order, |target| + 5)
    ensures |wrong| == 5 && forall c :: c in wrong ==> c !in target
    ensures exists used :: 0 <= used <= |picks| && wrong == Accepted(target, picks[..used])
    ensures balloons == Shuffle.Shuffled(BuiltBalloons(target, wrong, now), order)
    ensures |balloons| == |target| + 5
    ensures multiset(balloons) == multiset(BuiltBalloons(target, wrong, now))
    ensures forall k :: 0 <= k < |balloons| ==> BalloonFits(balloons[k], target)
    ensures Shuffle.Apart(balloons, (b: Balloon) => b.id)
  {
    var used;
    wrong, used := Decoys(target, picks);
    AcceptedAvoidsWord(target, picks[..used]);
    var built := BuiltBalloons(target, wrong, now);
    balloons := Shuffle.Shuffled(built, order);
    ShuffledBalloons(target, wrong, order, now);
  }

  lemma ShuffledBalloons(target: string, wrong: string, order: seq<int>, now: int)
    requires |wrong| == 5 && forall c :: c in wrong ==> c !in target
    requires Shuffle.ValidDraws(order, |target| + 5)
    ensures var r := Shuffle.Shuffled(BuiltBalloons(target, wrong, now), order);
      && |r| == |target| + 5 && multiset(r) == multiset(BuiltBalloons(target, wrong, now))
      && (forall k :: 0 <= k < |r| ==> BalloonFits(r[k], target))
      && Shuffle.Apart(r, (b: Balloon) => b.id)
  {
    var built := BuiltBalloons(target, wrong, now);
    var r := Shuffle.Shuffled(built, order);
    Shuffle.ShuffledIsPermutation(built, order);
    forall i | 0 <= i < |built| ensures BalloonFits(built[i], target) {
      if i >= |target| {
        assert built[i] == Balloon(WrongId(i - |target|, now), wrong[i - |target|]);
      }
    }
    forall k | 0 <= k < |r| ensures BalloonFits(r[k], target) {
      assert r[k] in multiset(built);
      var i :| 0 <= i < |built| && built[i] == r[k];
    }
    forall i, j | 0 <= i < j < |built| ensures built[i].id != built[j].id {
      if j >= |target| && i >= |target| {
        assert built[j].id == WrongId(j - |target|, now);
        assert built[i].id == WrongId(i - |target|, now);
      }
    }
    Shuffle.ShuffledKeepsApart(built, order, (b: Balloon) => b.id);
  }

  /** A dealt field holds a balloon for every letter of the word, each at its own position,
      and exactly five decoys. */
  lemma DealtHoldsWord(balloons: seq<Balloon>, target: string, picks: seq<nat>, order: seq<int>, now: int)
    requires DealtFrom(balloons, target, picks, order, now)
    ensures |balloons| == |target| + 5
    ensures forall i :: 0 <= i < |target| ==> Balloon(CorrectId(i, now), target[i]) in balloons
    ensures forall i :: 0 <= i < 5 ==> exists b :: b in balloons && b.id == WrongId(i, now)
  {
    var used :| 0 <= used <= |picks| && |Accepted(target, picks[..used])| == 5
      && balloons == Shuffle.Shuffled(BuiltBalloons(target, Accepted(target, picks[..used]), now), order);
    var built := BuiltBalloons(target, Accepted(target, picks[..used]), now);
    Shuffle.ShuffledIsPermutation(built, order);
    forall i | 0 <= i < |target| ensures Balloon(CorrectId(i, now), target[i]) in balloons {
      assert built[i] in multiset(balloons);
    }
    forall i | 0 <= i < 5 ensures exists b :: b in balloons && b.id == WrongId(i, now) {
      assert built[|target| + i] in multiset(balloons);
    }
  }

  // ---------------------------------------------------------------- aiming and shooting

  datatype Direction = Up | Down | Left | Right

  datatype Action = Move(dir: Direction) | Fire

  /** The controls: W/A/S/D and Space or Q for player 1, the arrow keys and Enter or P for
      player 2 (letters in either case). */
  function ShooterKey(key: string): (r: Option<(Side, Action)>)
  {
    if key == "w" || key == "W" then Some((One, Move(Up)))
    else if key == "s" || key == "S" then Some((One, Move(Down)))
    else if key == "a" || key == "A" then Some((One, Move(Left)))
    else if key == "d" || key == "D" then Some((One, Move(Right)))
    else if key == " " || key == "q" || key == "Q" then Some((One, Fire))
    else if key == "ArrowUp" then Some((Two, Move(Up)))
    else if key == "ArrowDown" then Some((Two, Move(Down)))
    else if key == "ArrowLeft" then Some((Two, Move(Left)))
    else if key == "ArrowRight" then Some((Two, Move(Right)))
    else if key == "Enter" || key == "p" || key == "P" then Some((Two, Fire))
    else None
  }

  function Min(a: int, b: int): int { if a <= b then a else b }
  function Max(a: int, b: int): int { if a >= b then a else b }

  /** A crosshair step of 5 in one direction, held inside [5, 95] on both axes. */
  function Moved(c: Crosshair, d: Direction): (r: Crosshair)
  {
    match d
    case Up => c.(y := Max(5, c.y - STEP))
    case Down => c.(y := Min(95, c.y + STEP))
    case Left => c.(x := Max(5, c.x - STEP))
    case Right => c.(x := Min(95, c.x + STEP))
  }

  /** A crosshair stays on the grid of multiples of 5 inside [5, 95]. */
  predicate OnGrid(c: Crosshair)
  {
    5 <= c.x <= 95 && 5 <= c.y <= 95 && c.x % STEP == 0 && c.y % STEP == 0
  }

  /** A step moves one coordinate by exactly 5 unless that would leave [5, 95], where it
      stays put, and keeps the crosshair on the grid. */
  lemma MovedStaysOnGrid(c: Crosshair, d: Direction)
    requires OnGrid(c)
    ensures OnGrid(Moved(c, d))
    ensures d in {Up, Down} ==> Moved(c, d).x == c.x
    ensures d in {Left, Right} ==> Moved(c, d).y == c.y
    ensures d == Up ==> Moved(c, d).y == (if c.y - STEP < 5 then c.y else c.y - STEP)
    ensures d == Down ==> Moved(c, d).y == (if c.y + STEP > 95 then c.y else c.y + STEP)
    ensures d == Left ==> Moved(c, d).x == (if c.x - STEP < 5 then c.x else c.x - STEP)
    ensures d == Right ==> Moved(c, d).x == (if c.x + STEP > 95 then c.x else c.x + STEP)
  {
  }

  /** One player's half: the balloons still up, the letters popped so far and the crosshair. */
  datatype Field = Field(balloons: seq<Balloon>, progress: string, crosshair: Crosshair)

  /** The balloon a shot hits: the first one the hit test accepts. */
  function Hit(f: Field, near: Balloon -> bool): Option<Balloon>
  {
    match FindFirst(f.balloons, near)
    case None => None
    case Some(k) => Some(f.balloons[k])
  }

  /** The hit balloon carries the letter the word needs next. */
  predicate Pops(f: Field, target: string, near: Balloon -> bool)
  {
    var b := Hit(f, near);
    b.Some? && |f.progress| < |target| && b.value.letter == target[|f.progress|]
  }

  /** A shot: nothing under the crosshair, nothing changes; otherwise the hit balloon goes,
      and its letter joins the progress when it is the next letter of the word. */
  function Shoot(f: Field, target: string, near: Balloon -> bool): (r: Field)
    ensures Hit(f, near).None? ==> r == f
    ensures Hit(f, near).Some? ==>
      r.balloons == Filter(f.balloons, (b: Balloon) => b.id != Hit(f, near).value.id)
    ensures Pops(f, target, near) ==> r.progress == f.progress + [target[|f.progress|]]
    ensures !Pops(f, target, near) ==> r.progress == f.progress
    ensures r.crosshair == f.crosshair
  {
    match Hit(f, near)
    case None => f
    case Some(hit) =>
      var rest := Filter(f.balloons, (b: Balloon) => b.id != hit.id);
      if |f.progress| < |target| && hit.letter == target[|f.progress|] then
        f.(balloons := rest, progress := f.progress + [hit.letter])
      else f.(balloons := rest)
  }

  predicate FieldOk(f: Field, target: string)
  {
    f.progress <= target && OnGrid(f.crosshair)
  }

  /** What has been popped is always the start of the word, and a shot completes the word
      exactly when it pops its last letter. */
  lemma ShootKeeps(f: Field, target: string, near: Balloon -> bool)
    requires FieldOk(f, target)
    ensures FieldOk(Shoot(f, target, near), target)
    ensures |Shoot(f, target, near).progress| == |target| <==>
      |f.progress| == |target| || (Pops(f, target, near) && |f.progress| + 1 == |target|)
  {
    if Pops(f, target, near) {
      assert Shoot(f, target, near).progress == target[..|f.progress| + 1];
    }
  }

  /** The word reported by a shot: the capital target, by the shot that pops its last letter. */
  function Reported(side: Side, f: Field, target: string, near: Balloon -> bool): (r: seq<(Side, string)>)
    ensures r != [] <==> Pops(f, target, near) && |f.progress| + 1 == |target|
    ensures r != [] ==> r == [(side, target)]
  {
    if Pops(f, target, near) && |f.progress| + 1 == |target| then [(side, target)] else []
  }

  const EMPTY_FIELD := Field([], [], CENTRE)

  class WordShooter {
    /** The level's word in capitals. */
    var target: string
    var field1: Field
    var field2: Field
    var gameStarted: bool
    /** The one-second timer that starts the game and puts up the balloons. */
    var startPending: bool
    /** The answers reported through `onPlayer1Answer` / `onPlayer2Answer`, in order. */
    var answers: seq<(Side, string)>

    function FieldOf(side: Side): Field
      reads this
    {
      if side == One then field1 else field2
    }

    predicate Valid()
      reads this
    {
      FieldOk(field1, target) && FieldOk(field2, target)
    }

    constructor(level: QuizLevel)
      ensures Valid()
      ensures target == ToUpper(level.targetWord)
      ensures field1 == EMPTY_FIELD && field2 == EMPTY_FIELD
      ensures !gameStarted && startPending && answers == []
    {
      target := ToUpper(level.targetWord);
      field1 := EMPTY_FIELD;
      field2 := EMPTY_FIELD;
      gameStarted := false;
      startPending := true;
      answers := [];
    }

    /** The start timer fires: the game starts and each player gets a fresh field of
        balloons, drawn independently. */
    method Start(picks1: seq<nat>, order1: seq<int>, picks2: seq<nat>, order2: seq<int>, now: int)
      requires Valid() && startPending
      requires ValidPicks(picks1) && |Accepted(target, picks1)| >= 5
      requires ValidPicks(picks2) && |Accepted(target, picks2)| >= 5
      requires Shuffle.ValidDraws(order1, |target| + 5) && Shuffle.ValidDraws(order2, |target| + 5)
      modifies this
      ensures Valid()
      ensures gameStarted && !startPending
      ensures field1.progress == old(field1.progress) && field1.crosshair == old(field1.crosshair)
      ensures field2.progress == old(field2.progress) && field2.crosshair == old(field2.crosshair)
      ensures |field1.balloons| == |target| + 5 && |field2.balloons| == |target| + 5
      ensures forall k :: 0 <= k < |field1.balloons| ==> BalloonFits(field1.balloons[k], target)
      ensures forall k :: 0 <= k < |field2.balloons| ==> BalloonFits(field2.balloons[k], target)
      ensures DealtFrom(field1.balloons, target, picks1, order1, now)
      ensures DealtFrom(field2.balloons, target, picks2, order2, now)
      ensures Shuffle.Apart(field1.balloons, (b: Balloon) => b.id)
      ensures Shuffle.Apart(field2.balloons, (b: Balloon) => b.id)
      ensures target == old(target) && answers == old(answers)
    {
      var b1, w1 := GenerateBalloons(target, picks1, order1, now);
      var b2, w2 := GenerateBalloons(target, picks2, order2, now);
      gameStarted := true;
      field1 := field1.(balloons := b1);
      field2 := field2.(balloons := b2);
      startPending := false;
    }

    /** A key press. The controls are live only once the game has started and while input is
        enabled; `near` is the hit test for a shot, on the balloons' current positions. */
    method KeyDown(key: string, disabled: bool, near: Balloon -> bool)
      requires Valid()
      modifies this
      ensures Valid()
      ensures !gameStarted || disabled || ShooterKey(key).None? ==>
        field1 == old(field1) && field2 == old(field2) && answers == old(answers)
      ensures gameStarted && !disabled && ShooterKey(key).Some? ==>
        var (side, action) := ShooterKey(key).value;
        && FieldOf(side.Other()) == old(FieldOf(side.Other()))
        && (action.Move? ==>
              FieldOf(side) == old(FieldOf(side)).(crosshair := Moved(old(FieldOf(side)).crosshair, action.dir))
              && answers == old(answers))
        && (action.Fire? ==>
              FieldOf(side) == Shoot(old(FieldOf(side)), target, near)
              && answers == old(answers) + Reported(side, old(FieldOf(side)), target, near))
      ensures target == old(target) && gameStarted == old(gameStarted) && startPending == old(startPending)
    {
      if !gameStarted || disabled {
        return;
      }
      match ShooterKey(key)
      case None =>
      case Some((side, action)) =>
        var f := FieldOf(side);
        var nf;
        if action.Move? {
          MovedStaysOnGrid(f.crosshair, action.dir);
          nf := f.(crosshair := Moved(f.crosshair, action.dir));
        } else {
          ShootKeeps(f, target, near);
          nf := Shoot(f, target, near);
          answers := answers + Reported(side, f, target, near);
        }
        if side == One { field1 := nf; } else { field2 := nf; }
    }

    /** A new level: both fields are emptied, the crosshairs go back to the centre and the game
        stops. The start timer is set again only when the word itself changed. */
    method ChangeLevel(level: QuizLevel)
      modifies this
      ensures Valid()
      ensures target == ToUpper(level.targetWord)
      ensures field1 == EMPTY_FIELD && field2 == EMPTY_FIELD && !gameStarted
      ensures startPending == (old(startPending) || target != old(target))
      ensures answers == old(answers)
    {
      var word := ToUpper(level.targetWord);
      if word != target {
        startPending := true;
      }
      target := word;
      field1 := EMPTY_FIELD;
      field2 := EMPTY_FIELD;
      gameStarted := false;
    }
  }
}
