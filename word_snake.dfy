/** The word-snake race: each player steers a snake over their own 10x10 grid, which wraps
    around at the edges, and eats the letters of the word in order. A letter eaten out of
    order, or a decoy, is lost. The 200 ms movement interval is the step `Tick`, and the cell
    and letter draws behind the layout are given as streams. */
module WordSnakeGame {
  import opened Text
  import opened Types
  import opened Slots

  const GRID_SIZE := 10
  /** Decoy letters put on each grid besides the word's own. */
  const DECOYS := 8

  datatype Cell = Cell(x: int, y: int)

  predicate OnGrid(c: Cell)
  {
    0 <= c.x < GRID_SIZE && 0 <= c.y < GRID_SIZE
  }

  /** A letter on the grid: a letter of the word carries its position in the word, a decoy
      carries -1. */
  datatype LetterItem = LetterItem(letter: char, position: Cell, isTarget: bool, index: int)

  // ---------------------------------------------------------------- laying out the letters

  /** The cells a stream of random cells yields when each draw already taken is drawn again:
      the stream's cells in order, each at its first occurrence. */
  function Fresh(cells: seq<Cell>): (r: seq<Cell>)
    ensures |r| <= |cells|
    decreases |cells|
  {
    if cells == [] then []
    else
      var f := Fresh(cells[..|cells| - 1]);
      f + (if cells[|cells| - 1] in f then [] else [cells[|cells| - 1]])
  }

  /** One more draw is taken exactly when it is not a cell already taken. */
  lemma FreshNext(cells: seq<Cell>, n: nat)
    requires n < |cells|
    ensures Fresh(cells[..n + 1]) == Fresh(cells[..n]) + (if cells[n] in Fresh(cells[..n]) then [] else [cells[n]])
  {
    assert cells[..n + 1][..n] == cells[..n];
  }

  /** The cells taken are pairwise distinct, and each is one of the draws. */
  lemma {:induction false} FreshDistinct(cells: seq<Cell>)
    ensures forall i, j :: 0 <= i < j < |Fresh(cells)| ==> Fresh(cells)[i] != Fresh(cells)[j]
    ensures forall c :: c in Fresh(cells) ==> c in cells
    decreases |cells|
  {
    if cells != [] {
      var init := cells[..|cells| - 1];
      FreshDistinct(init);
      assert forall c :: c in init ==> c in cells;
    }
  }

  /** The `k`-th letter laid out, at cell `c`: the word's letters first, then the decoys. */
  function Item(target: string, picks: seq<nat>, k: nat, c: Cell): LetterItem
    requires ValidPicks(picks) && |picks| == DECOYS && k < |target| + DECOYS
  {
    if k < |target| then LetterItem(target[k], c, true, k)
    else LetterItem(AlphabetLetter(picks[k - |target|]), c, false, -1)
  }

  /** The letters laid out on the cells `ps`, in order. */
  function Items(target: string, picks: seq<nat>, ps: seq<Cell>): (r: seq<LetterItem>)
    requires ValidPicks(picks) && |picks| == DECOYS && |ps| <= |target| + DECOYS
    ensures |r| == |ps|
  {
    seq(|ps|, k requires 0 <= k < |ps| => Item(target, picks, k, ps[k]))
  }

  lemma ItemsNext(target: string, picks: seq<nat>, ps: seq<Cell>, c: Cell)
    requires ValidPicks(picks) && |picks| == DECOYS && |ps| < |target| + DECOYS
    ensures Items(target, picks, ps + [c]) == Items(target, picks, ps) + [Item(target, picks, |ps|, c)]
  {
  }

  /** A letter laid out where the word needs it: a letter of the word sits at its own position
      in the word, a decoy carries -1. */
  predicate Fits(l: LetterItem, target: string)
  {
    if l.isTarget then 0 <= l.index < |target| && l.letter == target[l.index] else l.index == -1
  }

  predicate AllFit(letters: seq<LetterItem>, target: string)
  {
    forall k :: 0 <= k < |letters| ==> Fits(letters[k], target)
  }

  /** No two letters share a cell. */
  predicate Spread(letters: seq<LetterItem>)
  {
    forall i, j :: 0 <= i < j < |letters| ==> letters[i].position != letters[j].position
  }

  /** A layout on distinct grid cells puts every letter of the word, at its own position in
      the word, and the decoys each on a cell of its own. */
  lemma ItemsFit(target: string, picks: seq<nat>, ps: seq<Cell>)
    requires ValidPicks(picks) && |picks| == DECOYS && |ps| == |target| + DECOYS
    requires forall i, j :: 0 <= i < j < |ps| ==> ps[i] != ps[j]
    requires forall c :: c in ps ==> OnGrid(c)
    ensures var r := Items(target, picks, ps);
      && Spread(r)
      && (forall k :: 0 <= k < |r| ==> Fits(r[k], target) && OnGrid(r[k].position))
      && (forall i :: 0 <= i < |target| ==> r[i].isTarget && r[i].index == i && r[i].letter == target[i])
      && (forall k :: |target| <= k < |r| ==> !r[k].isTarget && r[k].index == -1)
  {
    var r := Items(target, picks, ps);
    forall k | 0 <= k < |r| ensures OnGrid(r[k].position) {
      assert ps[k] in ps;
    }
  }

  /** One `do ... while` draw: cells are drawn from `from` on until one is not yet taken. */
  method PlaceNext(cells: seq<Cell>, from: nat, taken: set<Cell>) returns (pos: Cell, next: nat)
    requires from <= |cells| && |Fresh(cells[..from])| < |Fresh(cells)|
    requires forall c :: c in taken <==> c in Fresh(cells[..from])
    ensures from < next <= |cells| && pos !in taken
    ensures Fresh(cells[..next]) == Fresh(cells[..from]) + [pos]
  {
    assert cells[..|cells|] == cells;
    pos := cells[from];
    FreshNext(cells, from);
    next := from + 1;
    while pos in taken
      invariant from < next <= |cells|
      invariant Fresh(cells[..next]) == Fresh(cells[..from]) + (if pos in taken then [] else [pos])
      decreases |cells| - next
    {
      pos := cells[next];
      FreshNext(cells, next);
      next := next + 1;
    }
  }

  /** `generateLetters`: each letter of the word, then eight decoys with letters drawn from
      the alphabet, each on a random cell drawn again while it is taken. The cell stream must
      hold enough distinct cells (a word of 93 letters or more leaves too few, and the loop
      would run forever). */
  method GenerateLetters(target: string, cells: seq<Cell>, picks: seq<nat>) returns (letters: seq<LetterItem>)
    requires ValidPicks(picks) && |picks| == DECOYS
    requires |Fresh(cells)| >= |target| + DECOYS
    ensures exists used :: (0 <= used <= |cells| && |Fresh(cells[..used])| == |target| + DECOYS
      && letters == Items(target, picks, Fresh(cells[..used])))
  {
    assert cells[..0] == [];
    letters := [];
    var taken: set<Cell> := {};
    var used := 0;
    var i := 0;
    while i < |target|
      invariant i <= |target| && used <= |cells| && |Fresh(cells[..used])| == i
      invariant forall c :: c in taken <==> c in Fresh(cells[..used])
      invariant letters == Items(target, picks, Fresh(cells[..used]))
    {
      ghost var before := Fresh(cells[..used]);
      var pos;
      pos, used := PlaceNext(cells, used, taken);
      ItemsNext(target, picks, before, pos);
      taken := taken + {pos};
      letters := letters + [LetterItem(target[i], pos, true, i)];
      i := i + 1;
    }
    i := 0;
    while i < DECOYS
      invariant i <= DECOYS && used <= |cells| && |Fresh(cells[..used])| == |target| + i
      invariant forall c :: c in taken <==> c in Fresh(cells[..used])
      invariant letters == Items(target, picks, Fresh(cells[..used]))
    {
      ghost var before := Fresh(cells[..used]);
      var pos;
      pos, used := PlaceNext(cells, used, taken);
      ItemsNext(target, picks, before, pos);
      taken := taken + {pos};
      letters := letters + [LetterItem(AlphabetLetter(picks[i]), pos, false, -1)];
      i := i + 1;
    }
  }

  /** A layout from grid cells: the letters sit on distinct grid cells, every letter of the
      word at its own position in the word, then the eight decoys. */
  lemma LayoutFits(target: string, cells: seq<Cell>, picks: seq<nat>, used: nat)
    requires ValidPicks(picks) && |picks| == DECOYS && used <= |cells|
    requires forall k :: 0 <= k < |cells| ==> OnGrid(cells[k])
    requires |Fresh(cells[..used])| == |target| + DECOYS
    ensures var r := Items(target, picks, Fresh(cells[..used]));
      && |r| == |target| + DECOYS && Spread(r)
      && (forall k :: 0 <= k < |r| ==> Fits(r[k], target) && OnGrid(r[k].position))
      && (forall i :: 0 <= i < |target| ==> r[i].isTarget && r[i].index == i && r[i].letter == target[i])
      && (forall k :: |target| <= k < |r| ==> !r[k].isTarget && r[k].index == -1)
  {
    FreshDistinct(cells[..used]);
    forall c | c in Fresh(cells[..used]) ensures OnGrid(c) {
      assert c in cells[..used];
    }
    ItemsFit(target, picks, Fresh(cells[..used]));
  }

  /** A grid's letters are the layout `generateLetters` makes from these draws: the items on
      the first distinct cells of the stream. */
  predicate LaidOut(letters: seq<LetterItem>, target: string, cells: seq<Cell>, picks: seq<nat>)
  {
    && ValidPicks(picks) && |picks| == DECOYS
    && exists used :: (0 <= used <= |cells| && |Fresh(cells[..used])| == |target| + DECOYS
         && letters == Items(target, picks, Fresh(cells[..used])))
  }

  /** The word's letters come first, letter i carrying index i, and the decoys follow with
      index -1. */
  predicate WordThenDecoys(letters: seq<LetterItem>, target: string)
  {
    && (forall i :: 0 <= i < |target| && i < |letters| ==>
          letters[i].isTarget && letters[i].index == i && letters[i].letter == target[i])
    && (forall k :: |target| <= k < |letters| ==> !letters[k].isTarget && letters[k].index == -1)
  }

  // ---------------------------------------------------------------- steering

  /** A direction of travel, as a step on each axis. */
  datatype Dir = Dir(dx: int, dy: int)

  predicate Unit(d: Dir)
  {
    d == Dir(1, 0) || d == Dir(-1, 0) || d == Dir(0, 1) || d == Dir(0, -1)
  }

  function Reverse(d: Dir): Dir
  {
    Dir(-d.dx, -d.dy)
  }

  datatype Heading = Up | Down | Left | Right

  function Toward(h: Heading): (d: Dir)
    ensures Unit(d)
  {
    match h
    case Up => Dir(0, -1)
    case Down => Dir(0, 1)
    case Left => Dir(-1, 0)
    case Right => Dir(1, 0)
  }

  /** A press towards `h`: taken unless it would turn the snake straight back. */
  function Turn(prev: Dir, h: Heading): Dir
  {
    match h
    case Up => if prev.dy != 1 then Dir(0, -1) else prev
    case Down => if prev.dy != -1 then Dir(0, 1) else prev
    case Left => if prev.dx != 1 then Dir(-1, 0) else prev
    case Right => if prev.dx != -1 then Dir(1, 0) else prev
  }

  /** A snake moving along an axis turns to any heading but straight back, and never ends up
      reversed. */
  lemma TurnNeverReverses(prev: Dir, h: Heading)
    requires Unit(prev)
    ensures Unit(Turn(prev, h)) && Turn(prev, h) != Reverse(prev)
    ensures Turn(prev, h) == Toward(h) <==> Toward(h) != Reverse(prev)
    ensures Turn(prev, h) != Toward(h) ==> Turn(prev, h) == prev
  {
  }

  /** The controls: W/A/S/D (either case) for player 1, the arrow keys for player 2. */
  function SnakeKey(key: string): (r: Option<(Side, Heading)>)
    ensures r.Some? && r.value.0 == One <==> key in ["w", "W", "s", "S", "a", "A", "d", "D"]
    ensures r.Some? && r.value.0 == Two <==> key in ["ArrowUp", "ArrowDown", "ArrowLeft", "ArrowRight"]
  {
    if key == "w" || key == "W" then Some((One, Up))
    else if key == "s" || key == "S" then Some((One, Down))
    else if key == "a" || key == "A" then Some((One, Left))
    else if key == "d" || key == "D" then Some((One, Right))
    else if key == "ArrowUp" then Some((Two, Up))
    else if key == "ArrowDown" then Some((Two, Down))
    else if key == "ArrowLeft" then Some((Two, Left))
    else if key == "ArrowRight" then Some((Two, Right))
    else None
  }

  // ---------------------------------------------------------------- moving

  /** The head's next cell, `(head + dir + GRID_SIZE) % GRID_SIZE` on each axis. */
  function Step(head: Cell, d: Dir): Cell
  {
    Cell(JsRem(head.x + d.dx + GRID_SIZE, GRID_SIZE), JsRem(head.y + d.dy + GRID_SIZE, GRID_SIZE))
  }

  function Wrap(a: int): int
  {
    if a == GRID_SIZE then 0 else if a == -1 then GRID_SIZE - 1 else a
  }

  /** A step stays on the grid: one cell along the direction, leaving at one edge and coming
      back in at the opposite one. */
  lemma StepWraps(head: Cell, d: Dir)
    requires OnGrid(head) && Unit(d)
    ensures OnGrid(Step(head, d))
    ensures Step(head, d) == Cell(Wrap(head.x + d.dx), Wrap(head.y + d.dy))
  {
  }

  /** One player's grid: the snake, head first, its direction, the letters still on the grid
      and the letters collected. */
  datatype Board = Board(snake: seq<Cell>, dir: Dir, letters: seq<LetterItem>, collected: string)

  function At(c: Cell): LetterItem -> bool
  {
    (l: LetterItem) => l.position == c
  }

  function Other(l: LetterItem): LetterItem -> bool
  {
    (l': LetterItem) => l' != l
  }

  /** The letter under the head's next cell, if any: the first one there. */
  function Eaten(b: Board): Option<LetterItem>
    requires |b.snake| > 0
  {
    match FindFirst(b.letters, At(Step(b.snake[0], b.dir)))
    case None => None
    case Some(k) => Some(b.letters[k])
  }

  /** The next move eats the letter of the word that comes next. */
  predicate EatsNext(b: Board)
    requires |b.snake| > 0
  {
    var e := Eaten(b);
    e.Some? && e.value.isTarget && e.value.index == |b.collected|
  }

  /** `moveSnake`: the head moves one step. Eating the next letter of the word collects it,
      takes it off the grid and keeps the tail, so the snake grows; eating any other letter
      takes it off the grid and the tail follows, as it does when nothing is eaten. */
  function Move(b: Board): (r: Board)
    requires |b.snake| > 0
    ensures r.dir == b.dir && |r.snake| > 0 && r.snake[0] == Step(b.snake[0], b.dir)
    ensures EatsNext(b) ==>
      r.snake[1..] == b.snake && r.collected == b.collected + [Eaten(b).value.letter]
    ensures !EatsNext(b) ==>
      r.snake[1..] == b.snake[..|b.snake| - 1] && r.collected == b.collected
    ensures Eaten(b).None? ==> r.letters == b.letters
    ensures Eaten(b).Some? ==> r.letters == Filter(b.letters, Other(Eaten(b).value))
  {
    var head := Step(b.snake[0], b.dir);
    match Eaten(b)
    case None => b.(snake := [head] + b.snake[..|b.snake| - 1])
    case Some(eaten) =>
      var rest := Filter(b.letters, Other(eaten));
      if eaten.isTarget && eaten.index == |b.collected| then
        b.(snake := [head] + b.snake, letters := rest, collected := b.collected + [eaten.letter])
      else
        b.(snake := if |b.snake| > 1 then [head] + b.snake[..|b.snake| - 1] else [head], letters := rest)
  }

  /** A grid in play: the snake is on the grid and moves along an axis, what is collected is
      the start of the word, and the letters left fit the word on cells of their own. */
  predicate BoardOk(b: Board, target: string)
  {
    |b.snake| > 0 && (forall k :: 0 <= k < |b.snake| ==> OnGrid(b.snake[k])) && Unit(b.dir)
    && b.collected <= target
    && AllFit(b.letters, target) && Spread(b.letters)
  }

  /** Taking the letter at `k` off a grid whose letters are on cells of their own removes that
      letter and no other, and what is left still fits the word on cells of its own. */
  lemma TakeOff(letters: seq<LetterItem>, k: nat, target: string)
    requires k < |letters| && Spread(letters)
    requires AllFit(letters, target)
    ensures Filter(letters, Other(letters[k])) == letters[..k] + letters[k + 1..]
    ensures Spread(letters[..k] + letters[k + 1..]) && AllFit(letters[..k] + letters[k + 1..], target)
  {
    var eaten := letters[k];
    forall j | 0 <= j < |letters| ensures Other(eaten)(letters[j]) <==> j != k {
      if j != k {
        assert letters[j].position != eaten.position;
      }
    }
    FilterDropsOne(letters, Other(eaten), k);
    Splice(letters, k, target);
  }

  /** Leaving out one letter keeps the others on cells of their own and fitting the word. */
  lemma Splice(letters: seq<LetterItem>, k: nat, target: string)
    requires k < |letters| && Spread(letters)
    requires AllFit(letters, target)
    ensures Spread(letters[..k] + letters[k + 1..]) && AllFit(letters[..k] + letters[k + 1..], target)
  {
    var rest := letters[..k] + letters[k + 1..];
    forall j | 0 <= j < |rest| ensures rest[j] == letters[if j < k then j else j + 1] {
    }
  }

  /** A move keeps the grid in play; a letter eaten is the one letter that leaves the grid;
      the snake grows by one exactly when it eats the next letter of the word, and that
      letter is the word's next one. */
  lemma MoveKeeps(b: Board, target: string)
    requires BoardOk(b, target)
    ensures BoardOk(Move(b), target)
    ensures |Move(b).snake| == |b.snake| + (if EatsNext(b) then 1 else 0)
    ensures |Move(b).letters| == |b.letters| - (if Eaten(b).Some? then 1 else 0)
    ensures EatsNext(b) ==> Move(b).collected == target[..|b.collected| + 1]
  {
    var r := Move(b);
    StepWraps(b.snake[0], b.dir);
    assert forall k :: 1 <= k < |r.snake| ==> r.snake[k] in b.snake;
    var found := FindFirst(b.letters, At(Step(b.snake[0], b.dir)));
    if found.Some? {
      TakeOff(b.letters, found.value, target);
    }
    if EatsNext(b) {
      assert r.collected == target[..|b.collected| + 1];
    }
  }

  /** Sending the word: reported once, by the move that eats its last letter. */
  function Reported(side: Side, b: Board, target: string): (r: seq<(Side, string)>)
    requires |b.snake| > 0
    ensures r != [] <==> EatsNext(b) && |b.collected| + 1 == |target|
    ensures r != [] ==> r == [(side, target)]
  {
    if EatsNext(b) && |b.collected| + 1 == |target| then [(side, target)] else []
  }

  /** A board just laid out: a one-cell snake at `start` facing `dir`, nothing collected. */
  function NewBoard(start: Cell, dir: Dir, letters: seq<LetterItem>): Board
  {
    Board([start], dir, letters, [])
  }

  const START1 := Cell(0, 5)
  const START2 := Cell(GRID_SIZE - 1, 5)

  class WordSnake {
    /** The level's word in capitals. */
    var target: string
    var board1: Board
    var board2: Board
    var gameStarted: bool
    /** The 1.5-second start timer set by every level change. */
    var startPending: bool
    /** The answers reported through `onPlayer1Answer` / `onPlayer2Answer`, in order. */
    var answers: seq<(Side, string)>

    function BoardOf(side: Side): Board
      reads this
    {
      if side == One then board1 else board2
    }

    predicate Valid()
      reads this
    {
      BoardOk(board1, target) && BoardOk(board2, target)
    }

    /** The grids as a level lays them out: the snakes at the two ends of row 5 facing each
        other, and each grid's letters from its own draws. */
    constructor(level: QuizLevel, cells1: seq<Cell>, picks1: seq<nat>, cells2: seq<Cell>, picks2: seq<nat>)
      requires forall k :: 0 <= k < |cells1| ==> OnGrid(cells1[k])
      requires forall k :: 0 <= k < |cells2| ==> OnGrid(cells2[k])
      requires ValidPicks(picks1) && |picks1| == DECOYS && ValidPicks(picks2) && |picks2| == DECOYS
      requires |Fresh(cells1)| >= |ToUpper(level.targetWord)| + DECOYS
      requires |Fresh(cells2)| >= |ToUpper(level.targetWord)| + DECOYS
      ensures Valid()
      ensures target == ToUpper(level.targetWord)
      ensures board1.snake == [START1] && board1.dir == Dir(1, 0) && board1.collected == []
      ensures board2.snake == [START2] && board2.dir == Dir(-1, 0) && board2.collected == []
      ensures |board1.letters| == |board2.letters| == |target| + DECOYS
      ensures LaidOut(board1.letters, target, cells1, picks1) && LaidOut(board2.letters, target, cells2, picks2)
      ensures WordThenDecoys(board1.letters, target) && WordThenDecoys(board2.letters, target)
      ensures !gameStarted && startPending && answers == []
    {
      var t := ToUpper(level.targetWord);
      var l1 := GenerateLetters(t, cells1, picks1);
      var l2 := GenerateLetters(t, cells2, picks2);
      ghost var u1 :| 0 <= u1 <= |cells1| && |Fresh(cells1[..u1])| == |t| + DECOYS && l1 == Items(t, picks1, Fresh(cells1[..u1]));
      ghost var u2 :| 0 <= u2 <= |cells2| && |Fresh(cells2[..u2])| == |t| + DECOYS && l2 == Items(t, picks2, Fresh(cells2[..u2]));
      LayoutFits(t, cells1, picks1, u1);
      LayoutFits(t, cells2, picks2, u2);
      target := t;
      board1 := NewBoard(START1, Dir(1, 0), l1);
      board2 := NewBoard(START2, Dir(-1, 0), l2);
      gameStarted := false;
      startPending := true;
      answers := [];
    }

    /** The start timer fires. */
    method Start()
      requires Valid() && startPending
      modifies this
      ensures Valid()
      ensures gameStarted && !startPending
      ensures target == old(target) && board1 == old(board1) && board2 == old(board2) && answers == old(answers)
    {
      gameStarted := true;
      startPending := false;
    }

    /** A key press, heard only once the game has started and while input is enabled: a
        steering key turns its player's snake unless that would reverse it. */
    method KeyDown(key: string, disabled: bool)
      requires Valid()
      modifies this
      ensures Valid()
      ensures !gameStarted || disabled || SnakeKey(key).None? ==> board1 == old(board1) && board2 == old(board2)
      ensures gameStarted && !disabled && SnakeKey(key).Some? ==>
        var side := SnakeKey(key).value.0;
        BoardOf(side) == old(BoardOf(side)).(dir := Turn(old(BoardOf(side)).dir, SnakeKey(key).value.1))
        && BoardOf(side.Other()) == old(BoardOf(side.Other()))
      ensures target == old(target) && gameStarted == old(gameStarted)
      ensures startPending == old(startPending) && answers == old(answers)
    {
      if !gameStarted || disabled {
        return;
      }
      match SnakeKey(key)
      case None =>
      case Some((side, h)) =>
        if side == One {
          TurnNeverReverses(board1.dir, h);
          board1 := board1.(dir := Turn(board1.dir, h));
        } else {
          TurnNeverReverses(board2.dir, h);
          board2 := board2.(dir := Turn(board2.dir, h));
        }
    }

    /** One tick of the movement interval, which runs only once the game has started and while
        input is enabled: both snakes move, player 1 first, and a move that completes the word
        reports it. */
    method Tick(disabled: bool)
      requires Valid()
      modifies this
      ensures Valid()
      ensures !gameStarted || disabled ==>
        board1 == old(board1) && board2 == old(board2) && answers == old(answers)
      ensures gameStarted && !disabled ==>
        board1 == Move(old(board1)) && board2 == Move(old(board2))
        && answers == old(answers) + Reported(One, old(board1), target) + Reported(Two, old(board2), target)
      ensures target == old(target) && gameStarted == old(gameStarted) && startPending == old(startPending)
    {
      if !gameStarted || disabled {
        return;
      }
      MoveKeeps(board1, target);
      MoveKeeps(board2, target);
      answers := answers + Reported(One, board1, target) + Reported(Two, board2, target);
      board1 := Move(board1);
      board2 := Move(board2);
    }

    /** A new level: both grids laid out again, the snakes back at their starts, the game
        stopped and the start timer set again. */
    method ChangeLevel(level: QuizLevel, cells1: seq<Cell>, picks1: seq<nat>, cells2: seq<Cell>, picks2: seq<nat>)
      requires forall k :: 0 <= k < |cells1| ==> OnGrid(cells1[k])
      requires forall k :: 0 <= k < |cells2| ==> OnGrid(cells2[k])
      requires ValidPicks(picks1) && |picks1| == DECOYS && ValidPicks(picks2) && |picks2| == DECOYS
      requires |Fresh(cells1)| >= |ToUpper(level.targetWord)| + DECOYS
      requires |Fresh(cells2)| >= |ToUpper(level.targetWord)| + DECOYS
      modifies this
      ensures Valid()
      ensures target == ToUpper(level.targetWord)
      ensures board1.snake == [START1] && board1.dir == Dir(1, 0) && board1.collected == []
      ensures board2.snake == [START2] && board2.dir == Dir(-1, 0) && board2.collected == []
      ensures |board1.letters| == |board2.letters| == |target| + DECOYS
      ensures LaidOut(board1.letters, target, cells1, picks1) && LaidOut(board2.letters, target, cells2, picks2)
      ensures WordThenDecoys(board1.letters, target) && WordThenDecoys(board2.letters, target)
      ensures !gameStarted && startPending && answers == old(answers)
    {
      var t := ToUpper(level.targetWord);
      var l1 := GenerateLetters(t, cells1, picks1);
      var l2 := GenerateLetters(t, cells2, picks2);
      ghost var u1 :| 0 <= u1 <= |cells1| && |Fresh(cells1[..u1])| == |t| + DECOYS && l1 == Items(t, picks1, Fresh(cells1[..u1]));
      ghost var u2 :| 0 <= u2 <= |cells2| && |Fresh(cells2[..u2])| == |t| + DECOYS && l2 == Items(t, picks2, Fresh(cells2[..u2]));
      LayoutFits(t, cells1, picks1, u1);
      LayoutFits(t, cells2, picks2, u2);
      target := t;
      board1 := NewBoard(START1, Dir(1, 0), l1);
      board2 := NewBoard(START2, Dir(-1, 0), l2);
      gameStarted := false;
      startPending := true;
    }
  }
}
