/** The versus scramble game: the answer word's letters are shuffled once, each player gets
    a copy of the shuffled letters in a pool of their own and rebuilds the word in a row of
    slots; a full row that spells the word (ignoring case) reports that player's answer. */
module ScrambleGame {
  import opened Text
  import opened Types
  import opened Slots
  import Shuffle

  /** Letter ids as the game builds them from the clock: `letter-<i>-<clock>` when the word is
      split, then `p1-<i>-<clock>` or `p2-<i>-<clock>` in each player's copy, where `i` is the
      position in the shuffled order. */
  datatype LetterId = Built(index: nat, time: int) | Dealt(side: Side, index: nat, time: int)

  /** A letter of the word, remembering where in the word it came from. */
  datatype Letter = Letter(id: LetterId, ch: char, originalIndex: nat)

  /** One player's pool of letters and row of slots. */
  datatype Board = Board(pool: seq<Letter>, slots: seq<Option<Letter>>)

  /** The word split into letters, before the shuffle. */
  function BuiltLetters(word: string, now: int): (r: seq<Letter>)
    ensures |r| == |word|
    ensures forall i :: 0 <= i < |r| ==> r[i] == Letter(Built(i, now), word[i], i)
  {
    seq(|word|, i requires 0 <= i < |word| => Letter(Built(i, now), word[i], i))
  }

  /** `scrambledLetters`: the word's letters, shuffled in place. */
  method ScrambleLetters(word: string, draws: seq<int>, now: int) returns (r: seq<Letter>)
    requires Shuffle.ValidDraws(draws, |word|)
    ensures r == Shuffle.Shuffled(BuiltLetters(word, now), draws)
  {
    var a := new Letter[|word|](i requires 0 <= i < |word| => Letter(Built(i, now), word[i], i));
    assert a[..] == BuiltLetters(word, now);
    Shuffle.FisherYates(a, draws);
    r := a[..];
  }

  /** Every scrambled letter is the word's letter at its original index, and the scrambled
      letters are the built ones, reordered. */
  lemma ScrambledLettersKeepTheirPlace(word: string, draws: seq<int>, now: int)
    requires Shuffle.ValidDraws(draws, |word|)
    ensures var r := Shuffle.Shuffled(BuiltLetters(word, now), draws);
      && |r| == |word| && multiset(r) == multiset(BuiltLetters(word, now))
      && forall k :: 0 <= k < |r| ==> r[k].originalIndex < |word| && r[k].ch == word[r[k].originalIndex]
  {
    var built := BuiltLetters(word, now);
    var r := Shuffle.Shuffled(built, draws);
    Shuffle.ShuffledIsPermutation(built, draws);
    forall k | 0 <= k < |r| ensures r[k].originalIndex < |word| && r[k].ch == word[r[k].originalIndex] {
      assert r[k] in multiset(built);
      var i :| 0 <= i < |built| && built[i] == r[k];
    }
  }

  /** One player's copy: the same letters under that player's ids. */
  function DealTo(side: Side, scrambled: seq<Letter>, now: int): (r: seq<Letter>)
    ensures |r| == |scrambled|
    ensures forall i :: 0 <= i < |r| ==> r[i] == scrambled[i].(id := Dealt(side, i, now))
  {
    seq(|scrambled|, i requires 0 <= i < |scrambled| => scrambled[i].(id := Dealt(side, i, now)))
  }

  function FindId(pool: seq<Letter>, id: LetterId): Option<nat>
  {
    FindFirst(pool, (l: Letter) => l.id == id)
  }

  function Without(pool: seq<Letter>, id: LetterId): seq<Letter>
  {
    Filter(pool, (l: Letter) => l.id != id)
  }

  /** A drop takes effect when the letter is in this player's pool and the slot exists and is
      empty. */
  predicate DropTakes(b: Board, id: LetterId, slot: int)
  {
    FindId(b.pool, id).Some? && 0 <= slot < |b.slots| && b.slots[slot] == None
  }

  /** `handlePlayer1Drop` / `handlePlayer2Drop` on that player's board. */
  function DropOn(b: Board, id: LetterId, slot: int): Board
  {
    if DropTakes(b, id, slot)
    then Board(Without(b.pool, id), b.slots[slot := Some(b.pool[FindId(b.pool, id).value])])
    else b
  }

  /** `handlePlayer1Return` / `handlePlayer2Return`: the slot's letter goes to the end of the
      pool; an empty slot changes nothing. */
  function ReturnFrom(b: Board, slot: int): Board
  {
    if 0 <= slot < |b.slots| && b.slots[slot].Some?
    then Board(b.pool + [b.slots[slot].value], b.slots[slot := None])
    else b
  }

  /** The characters in a player's filled slots, joined. */
  function Spelling(b: Board): (r: string)
    ensures |r| == |Filled(b.slots)|
  {
    seq(|Filled(b.slots)|, i requires 0 <= i < |Filled(b.slots)| => Filled(b.slots)[i].ch)
  }

  /** `checkAnswer`: a full row whose letters spell the word, ignoring case, is an answer. */
  function Answer(b: Board, word: string): Option<string>
  {
    if Full(b.slots) && ToLower(Spelling(b)) == ToLower(word) then Some(Spelling(b)) else None
  }

  /** What `checkAnswer` reports for a player after a drop: their answer, if the row is one. */
  function Reported(side: Side, b: Board, word: string): (r: seq<(Side, string)>)
    ensures |r| <= 1
    ensures r != [] <==> Answer(b, word).Some?
    ensures r != [] ==> r[0] == (side, Answer(b, word).value)
  {
    match Answer(b, word)
    case None => []
    case Some(answer) => [(side, answer)]
  }

  // ---------------------------------------------------------------- board invariant

  predicate DistinctIds(pool: seq<Letter>)
  {
    forall i, j :: 0 <= i < j < |pool| ==> pool[i].id != pool[j].id
  }

  predicate Absent(pool: seq<Letter>, id: LetterId)
  {
    forall j :: 0 <= j < |pool| ==> pool[j].id != id
  }

  /** No id occurs twice anywhere on the board. */
  predicate Separate(b: Board)
  {
    && DistinctIds(b.pool)
    && (forall s :: 0 <= s < |b.slots| && b.slots[s].Some? ==> Absent(b.pool, b.slots[s].value.id))
    && (forall s, t :: 0 <= s < t < |b.slots| && b.slots[s].Some? && b.slots[t].Some? ==>
          b.slots[s].value.id != b.slots[t].value.id)
  }

  function OnBoard(b: Board): multiset<Letter>
  {
    multiset(b.pool) + multiset(Filled(b.slots))
  }

  /** A player's board holds exactly the letters dealt to them, one slot per letter of the
      word, and no id twice. */
  predicate Holds(b: Board, deal: seq<Letter>, word: string)
  {
    |b.slots| == |word| && Separate(b) && OnBoard(b) == multiset(deal)
  }

  lemma DistinctSplice(pool: seq<Letter>, k: nat)
    requires DistinctIds(pool) && k < |pool|
    ensures DistinctIds(pool[..k] + pool[k + 1..])
  {
    var r := pool[..k] + pool[k + 1..];
    forall i, j | 0 <= i < j < |r| ensures r[i].id != r[j].id {
      var i' := if i < k then i else i + 1;
      var j' := if j < k then j else j + 1;
      assert r[i] == pool[i'] && r[j] == pool[j'];
    }
  }

  /** With distinct ids, the drop takes out exactly the found letter. */
  lemma DropShape(b: Board, id: LetterId, slot: int)
    requires DistinctIds(b.pool) && DropTakes(b, id, slot)
    ensures var k := FindId(b.pool, id).value;
      DropOn(b, id, slot) == Board(b.pool[..k] + b.pool[k + 1..], b.slots[slot := Some(b.pool[k])])
  {
    var k := FindId(b.pool, id).value;
    FilterDropsOne(b.pool, (x: Letter) => x.id != id, k);
  }

  lemma SeparateAfterDrop(b: Board, k: nat, slot: nat)
    requires Separate(b) && k < |b.pool| && slot < |b.slots| && b.slots[slot] == None
    ensures Separate(Board(b.pool[..k] + b.pool[k + 1..], b.slots[slot := Some(b.pool[k])]))
  {
    var pool' := b.pool[..k] + b.pool[k + 1..];
    var slots' := b.slots[slot := Some(b.pool[k])];
    DistinctSplice(b.pool, k);
    forall j | 0 <= j < |pool'| ensures pool'[j] == b.pool[if j < k then j else j + 1] {}
    forall s | 0 <= s < |slots'| && slots'[s].Some? ensures Absent(pool', slots'[s].value.id) {
      if s != slot {
        assert Absent(b.pool, slots'[s].value.id);
      }
    }
    forall s, t | 0 <= s < t < |slots'| && slots'[s].Some? && slots'[t].Some?
      ensures slots'[s].value.id != slots'[t].value.id
    {
      if s == slot {
        assert Absent(b.pool, slots'[t].value.id);
      } else if t == slot {
        assert Absent(b.pool, slots'[s].value.id);
      }
    }
  }

  /** A drop moves one letter from the pool to the slot: the board keeps its letters and
      its ids stay apart. */
  lemma DropKeeps(b: Board, id: LetterId, slot: int, deal: seq<Letter>, word: string)
    requires Holds(b, deal, word)
    ensures Holds(DropOn(b, id, slot), deal, word)
  {
    if DropTakes(b, id, slot) {
      var k := FindId(b.pool, id).value;
      var nb := Board(b.pool[..k] + b.pool[k + 1..], b.slots[slot := Some(b.pool[k])]);
      DropShape(b, id, slot);
      SpliceMultiset(b.pool, k);
      FilledPut(b.slots, slot, b.pool[k]);
      assert OnBoard(nb) == OnBoard(b);
      SeparateAfterDrop(b, k, slot);
    }
  }

  /** A return moves the slot's letter back to the pool: the board keeps its letters and its
      ids stay apart. */
  lemma ReturnKeeps(b: Board, slot: int, deal: seq<Letter>, word: string)
    requires Holds(b, deal, word)
    ensures Holds(ReturnFrom(b, slot), deal, word)
  {
    if 0 <= slot < |b.slots| && b.slots[slot].Some? {
      var nb := Board(b.pool + [b.slots[slot].value], b.slots[slot := None]);
      FilledClear(b.slots, slot);
      assert OnBoard(nb) == OnBoard(b);
      SeparateAfterReturn(b, slot);
    }
  }

  lemma SeparateAfterReturn(b: Board, slot: nat)
    requires Separate(b) && slot < |b.slots| && b.slots[slot].Some?
    ensures Separate(Board(b.pool + [b.slots[slot].value], b.slots[slot := None]))
  {
    var x := b.slots[slot].value;
    var pool' := b.pool + [x];
    var slots' := b.slots[slot := None];
    forall i, j | 0 <= i < j < |pool'| ensures pool'[i].id != pool'[j].id {
      if j == |b.pool| {
        assert Absent(b.pool, x.id);
      }
    }
    forall s | 0 <= s < |slots'| && slots'[s].Some? ensures Absent(pool', slots'[s].value.id) {
      assert Absent(b.pool, slots'[s].value.id);
    }
  }

  /** Putting back the letter just dropped restores the row and leaves the same letters in
      the pool, with that letter moved to the end. */
  lemma ReturnUndoesDrop(b: Board, id: LetterId, slot: int, deal: seq<Letter>, word: string)
    requires Holds(b, deal, word) && DropTakes(b, id, slot)
    ensures var k := FindId(b.pool, id).value;
      ReturnFrom(DropOn(b, id, slot), slot) == Board(b.pool[..k] + b.pool[k + 1..] + [b.pool[k]], b.slots)
  {
    var k := FindId(b.pool, id).value;
    FilterDropsOne(b.pool, (x: Letter) => x.id != id, k);
    assert b.slots[slot := Some(b.pool[k])][slot := None] == b.slots;
  }

  /** A row holding every letter at its original index spells the word, so it is always
      accepted. */
  lemma InOrderIsAnswer(b: Board, word: string)
    requires |b.slots| == |word| && Full(b.slots)
    requires forall i :: 0 <= i < |b.slots| ==> b.slots[i].value.ch == word[i]
    ensures Answer(b, word) == Some(word)
  {
    FilledOfFull(b.slots);
    assert Spelling(b) == word;
  }

  /** An accepted answer has one letter per slot and equals the word up to case. */
  lemma AnswerSpellsWord(b: Board, word: string)
    requires Answer(b, word).Some?
    ensures Full(b.slots) && |Answer(b, word).value| == |b.slots|
    ensures ToLower(Answer(b, word).value) == ToLower(word)
  {
    FilledOfFull(b.slots);
  }

  // ---------------------------------------------------------------- the game

  class Scramble {
    var level: QuizLevel
    var scrambled: seq<Letter>
    /** The clock reading the letter ids were stamped with. */
    var stamp: int
    var board1: Board
    var board2: Board
    /** The answers reported through `onPlayer1Answer` / `onPlayer2Answer`, in order. */
    var answers: seq<(Side, string)>

    function BoardOf(side: Side): Board
      reads this
    {
      if side == One then board1 else board2
    }

    /** Each player's board holds exactly their copy of the scrambled letters. */
    predicate Valid()
      reads this
    {
      && Holds(board1, DealTo(One, scrambled, stamp), level.targetWord)
      && Holds(board2, DealTo(Two, scrambled, stamp), level.targetWord)
    }

    /** Both boards dealt afresh for `level` from the shuffle `draws`; the clock `now` only
        stamps the ids. */
    constructor(level: QuizLevel, draws: seq<int>, now: int)
      requires Shuffle.ValidDraws(draws, |level.targetWord|)
      ensures this.level == level && stamp == now
      ensures scrambled == Shuffle.Shuffled(BuiltLetters(level.targetWord, now), draws)
      ensures board1 == Board(DealTo(One, scrambled, now), Empty(|level.targetWord|))
      ensures board2 == Board(DealTo(Two, scrambled, now), Empty(|level.targetWord|))
      ensures answers == []
      ensures Valid()
    {
      var s := ScrambleLetters(level.targetWord, draws, now);
      this.level := level;
      scrambled := s;
      stamp := now;
      board1 := Board(DealTo(One, s, now), Empty(|level.targetWord|));
      board2 := Board(DealTo(Two, s, now), Empty(|level.targetWord|));
      answers := [];
      new;
      FilledOfEmpty<Letter>(|level.targetWord|);
    }

    /** A drop on one player's board; ignored while the game is disabled. The other board
        never changes. */
    method Drop(side: Side, id: LetterId, slot: int, disabled: bool)
      requires Valid()
      modifies this
      ensures BoardOf(side) == (if disabled then old(BoardOf(side)) else DropOn(old(BoardOf(side)), id, slot))
      ensures BoardOf(side.Other()) == old(BoardOf(side.Other()))
      ensures answers == old(answers) +
        (if !disabled && DropTakes(old(BoardOf(side)), id, slot) then Reported(side, BoardOf(side), level.targetWord) else [])
      ensures level == old(level) && scrambled == old(scrambled) && stamp == old(stamp)
      ensures Valid()
    {
      if disabled {
        return;
      }
      var b := BoardOf(side);
      if !DropTakes(b, id, slot) {
        return;
      }
      var nb := DropOn(b, id, slot);
      DropKeeps(b, id, slot, DealTo(side, scrambled, stamp), level.targetWord);
      var reported := Reported(side, nb, level.targetWord);
      if side == One {
        board1 := nb;
        answers := answers + reported;
        assert Holds(board2, DealTo(Two, scrambled, stamp), level.targetWord);
      } else {
        board2 := nb;
        answers := answers + reported;
        assert Holds(board1, DealTo(One, scrambled, stamp), level.targetWord);
      }
    }

    /** A click on a filled slot of one player's board; ignored while the game is disabled.
        The other board never changes. */
    method Return(side: Side, slot: int, disabled: bool)
      requires Valid()
      modifies this
      ensures BoardOf(side) == (if disabled then old(BoardOf(side)) else ReturnFrom(old(BoardOf(side)), slot))
      ensures BoardOf(side.Other()) == old(BoardOf(side.Other()))
      ensures answers == old(answers) && level == old(level) && scrambled == old(scrambled) && stamp == old(stamp)
      ensures Valid()
    {
      if disabled {
        return;
      }
      var b := BoardOf(side);
      var nb := ReturnFrom(b, slot);
      ReturnKeeps(b, slot, DealTo(side, scrambled, stamp), level.targetWord);
      if side == One {
        board1 := nb;
        assert Holds(board2, DealTo(Two, scrambled, stamp), level.targetWord);
      } else {
        board2 := nb;
        assert Holds(board1, DealTo(One, scrambled, stamp), level.targetWord);
      }
    }
  }
}
