/** The single-player fill-in-the-blank screen: the answer word's letters and the level's
    distractors are dealt as tiles into a pool, and the player drags or types them into one
    slot per letter of the word. */
module QuizScreen {
  import opened Text
  import opened Types
  import opened Slots

  /** Tile ids as the screen builds them from the clock: `letter-<index>-<clock>` for a tile
      dealt when the level opens, `letter-ret-<clock>` for a tile put back from a slot. The
      two templates never produce the same text, and a dealt id determines its index and
      clock, so the ids are modelled by their parts. */
  datatype TileId = Dealt(index: nat, time: int) | Returned(time: int)

  datatype Tile = Tile(id: TileId, ch: string)

  /** `placedLetters` and `availableLetters` together. */
  datatype Board = Board(placed: seq<Option<string>>, pool: seq<Tile>)

  /** `word.split('')`: one string per character. */
  function Letters(word: string): (r: seq<string>)
    ensures |r| == |word| && forall i :: 0 <= i < |r| ==> r[i] == [word[i]]
  {
    seq(|word|, i requires 0 <= i < |word| => [word[i]])
  }

  /** The characters on a row of tiles. */
  function Chars(pool: seq<Tile>): (r: seq<string>)
    ensures |r| == |pool| && forall i :: 0 <= i < |r| ==> r[i] == pool[i].ch
  {
    seq(|pool|, i requires 0 <= i < |pool| => pool[i].ch)
  }

  /** The tiles dealt for a level, in the shuffled order, stamped with the clock. */
  function Deal(order: seq<string>, now: int): (r: seq<Tile>)
    ensures Chars(r) == order
    ensures forall i :: 0 <= i < |r| ==> r[i].id == Dealt(i, now)
  {
    seq(|order|, i requires 0 <= i < |order| => Tile(Dealt(i, now), order[i]))
  }

  predicate DistinctIds(pool: seq<Tile>)
  {
    forall i, j :: 0 <= i < j < |pool| ==> pool[i].id != pool[j].id
  }

  /** `pool.find(l => l.id === id)`, as a position. */
  function FindId(pool: seq<Tile>, id: TileId): Option<nat>
  {
    FindFirst(pool, (t: Tile) => t.id == id)
  }

  /** `pool.find(l => l.char.toLowerCase() === key)`, as a position. */
  function FindKey(pool: seq<Tile>, key: string): Option<nat>
  {
    FindFirst(pool, (t: Tile) => ToLower(t.ch) == key)
  }

  /** `pool.filter(l => l.id !== id)` */
  function Without(pool: seq<Tile>, id: TileId): seq<Tile>
  {
    Filter(pool, (t: Tile) => t.id != id)
  }

  /** `handleDrop`: the first pool tile with the id goes into the slot when the slot exists
      and is empty, and every pool tile with that id leaves the pool; otherwise nothing
      changes. */
  function DropOn(b: Board, id: TileId, slot: int): Board
  {
    if DropTakes(b, id, slot)
    then Board(b.placed[slot := Some(b.pool[FindId(b.pool, id).value].ch)], Without(b.pool, id))
    else b
  }

  /** A drop takes effect when the id is in the pool and the slot exists and is empty. */
  predicate DropTakes(b: Board, id: TileId, slot: int)
  {
    FindId(b.pool, id).Some? && 0 <= slot < |b.placed| && b.placed[slot] == None
  }

  /** A click on a slot: a slot holding a non-empty letter is emptied and the letter goes to
      the end of the pool under a fresh `letter-ret` id. */
  function ReturnFrom(b: Board, slot: int, now: int): Board
  {
    if 0 <= slot < |b.placed| && b.placed[slot].Some? && b.placed[slot].value != ""
    then Board(b.placed[slot := None], b.pool + [Tile(Returned(now), b.placed[slot].value)])
    else b
  }

  /** The win check after a drop: every slot filled and the letters spell the word exactly. */
  predicate Spells(b: Board, word: string)
  {
    Full(b.placed) && Join(Filled(b.placed), "") == word
  }

  /** The letters on the board: those in the slots and those in the pool. */
  function OnBoard(b: Board): multiset<string>
  {
    multiset(Filled(b.placed)) + multiset(Chars(b.pool))
  }

  /** The board holds exactly the letters dealt for the level, one slot per letter of the
      word, and the pool's ids are distinct. */
  predicate HoldsDeal(b: Board, level: QuizLevel)
  {
    && |b.placed| == |level.targetWord|
    && DistinctIds(b.pool)
    && OnBoard(b) == multiset(Letters(level.targetWord) + level.distractors)
  }

  /** `/^[a-z]$/` */
  predicate IsLetterKey(k: string)
  {
    |k| == 1 && 'a' <= k[0] <= 'z'
  }

  // ---------------------------------------------------------------- properties of a move

  lemma CharsSplice(pool: seq<Tile>, k: nat)
    requires k < |pool|
    ensures multiset(Chars(pool[..k] + pool[k + 1..])) + multiset{pool[k].ch} == multiset(Chars(pool))
  {
    var front, back := pool[..k], pool[k + 1..];
    assert pool == front + [pool[k]] + back;
    CharsAppend(front + [pool[k]], back);
    CharsAppend(front, [pool[k]]);
    CharsAppend(front, back);
  }

  lemma CharsAppend(a: seq<Tile>, b: seq<Tile>)
    ensures Chars(a + b) == Chars(a) + Chars(b)
  {
  }

  /** With distinct ids, filtering out a tile's id removes that tile and nothing else. */
  lemma WithoutUnique(pool: seq<Tile>, k: nat)
    requires DistinctIds(pool) && k < |pool|
    ensures Without(pool, pool[k].id) == pool[..k] + pool[k + 1..]
  {
    var id := pool[k].id;
    FilterDropsOne(pool, (t: Tile) => t.id != id, k);
  }

  lemma DistinctSplice(pool: seq<Tile>, k: nat)
    requires DistinctIds(pool) && k < |pool|
    ensures DistinctIds(pool[..k] + pool[k + 1..])
  {
    var r := pool[..k] + pool[k + 1..];
    forall i, j | 0 <= i < j < |r| ensures r[i].id != r[j].id {
      var i' := if i < k then i else i + 1;
      var j' := if j < k then j else j + 1;
      assert r[i] == pool[i'] && r[j] == pool[j'];
    }
  }

  /** A drop onto a board with distinct ids either changes nothing or moves exactly one
      tile's letter from the pool into the slot: the letters on the board stay the same. */
  lemma DropConserves(b: Board, id: TileId, slot: int)
    requires DistinctIds(b.pool)
    ensures var r := DropOn(b, id, slot);
      && OnBoard(r) == OnBoard(b) && DistinctIds(r.pool) && |r.placed| == |b.placed|
      && (DropTakes(b, id, slot) ==> |r.pool| + 1 == |b.pool| && |Filled(r.placed)| == |Filled(b.placed)| + 1)
  {
    var r := DropOn(b, id, slot);
    var k := FindId(b.pool, id);
    if DropTakes(b, id, slot) {
      WithoutUnique(b.pool, k.value);
      CharsSplice(b.pool, k.value);
      DistinctSplice(b.pool, k.value);
      FilledPut(b.placed, slot, b.pool[k.value].ch);
      assert |multiset(Filled(r.placed))| == |multiset(Filled(b.placed))| + 1;
    }
  }

  /** Returning a letter moves it from its slot to the pool; the letters on the board stay the
      same, and the ids stay distinct when the new id is not already in use. */
  lemma ReturnConserves(b: Board, slot: int, now: int)
    ensures var r := ReturnFrom(b, slot, now);
      && OnBoard(r) == OnBoard(b) && |r.placed| == |b.placed|
      && (DistinctIds(b.pool) && FindId(b.pool, Returned(now)).None? ==> DistinctIds(r.pool))
  {
    var r := ReturnFrom(b, slot, now);
    if r != b {
      FilledClear(b.placed, slot);
      assert Chars(r.pool) == Chars(b.pool) + [b.placed[slot].value];
    }
  }

  /** Returning the letter just dropped empties the slot again and puts the same letter back
      at the end of the pool. */
  lemma ReturnUndoesDrop(b: Board, id: TileId, slot: int, now: int)
    requires DistinctIds(b.pool)
    requires DropTakes(b, id, slot)
    ensures var k := FindId(b.pool, id).value;
      b.pool[k].ch != "" ==>
        var r := ReturnFrom(DropOn(b, id, slot), slot, now);
        r.placed == b.placed && Chars(r.pool) == Chars(b.pool[..k] + b.pool[k + 1..]) + [b.pool[k].ch]
  {
    var k := FindId(b.pool, id).value;
    WithoutUnique(b.pool, k);
    var d := DropOn(b, id, slot);
    assert d.placed[slot := None] == b.placed;
  }

  /** The board a key press leads to: the first pool tile whose letter, lower-cased, is the
      key goes into the first empty slot. */
  function AfterKey(b: Board, key: string): Board
  {
    if KeyTakes(b, key)
    then DropOn(b, b.pool[FindKey(b.pool, ToLower(key)).value].id, FirstEmpty(b.placed).value)
    else b
  }

  /** A key press takes effect when, lower-cased, it is a single letter that some pool tile
      shows and some slot is empty. */
  predicate KeyTakes(b: Board, key: string)
  {
    IsLetterKey(ToLower(key)) && FindKey(b.pool, ToLower(key)).Some? && FirstEmpty(b.placed).Some?
  }

  /** A key press fills the first empty slot with the first matching pool letter, and does
      nothing for a key that is not a single letter, a letter not in the pool, or a full row. */
  lemma KeyFillsFirstEmptySlot(b: Board, key: string)
    requires DistinctIds(b.pool)
    ensures var pressed := ToLower(key);
      var r := AfterKey(b, key);
      if KeyTakes(b, key) then
        var k := FindKey(b.pool, pressed).value;
        var e := FirstEmpty(b.placed).value;
        && r.placed == b.placed[e := Some(b.pool[k].ch)]
        && r.pool == b.pool[..k] + b.pool[k + 1..]
        && (forall i :: 0 <= i < e ==> b.placed[i].Some?)
        && ToLower(b.pool[k].ch) == pressed
        && (forall j :: 0 <= j < k ==> ToLower(b.pool[j].ch) != pressed)
      else r == b
  {
    var pressed := ToLower(key);
    if KeyTakes(b, key) {
      var k := FindKey(b.pool, pressed).value;
      assert FindId(b.pool, b.pool[k].id) == Some(k);
      WithoutUnique(b.pool, k);
    }
  }

  // ---------------------------------------------------------------- the screen

  class LetterPuzzle {
    var level: QuizLevel
    var placed: seq<Option<string>>
    var pool: seq<Tile>
    var isWordCorrect: bool
    /** Wins scheduled by a winning drop, 300 ms ahead, and not yet fired. */
    var pendingWins: nat
    /** Completions scheduled by a fired win, 4.5 s ahead, and not yet fired. */
    var pendingReports: nat
    /** The scores handed to `onComplete`, in order. */
    var reported: seq<int>

    function CurrentBoard(): Board
      reads this
    {
      Board(placed, pool)
    }

    /** The board holds exactly the dealt letters, one slot per letter of the word, and the
        pool's ids are distinct. */
    predicate Valid()
      reads this
    {
      HoldsDeal(CurrentBoard(), level)
    }

    /** The screen opened on `level`; `order` is the shuffled deal of its letters. */
    constructor(level: QuizLevel, order: seq<string>, now: int)
      requires multiset(order) == multiset(Letters(level.targetWord) + level.distractors)
      ensures Valid()
      ensures this.level == level && placed == Empty(|level.targetWord|)
      ensures pool == Deal(order, now) && !isWordCorrect && pendingWins == 0 && reported == []
      ensures pendingReports == 0
    {
      this.level := level;
      placed := Empty(|level.targetWord|);
      pool := Deal(order, now);
      isWordCorrect := false;
      pendingWins := 0;
      pendingReports := 0;
      reported := [];
      new;
      FilledOfEmpty<string>(|level.targetWord|);
    }

    /** The effect run when the level changes: a fresh deal and empty slots. Wins already
        scheduled stay scheduled. */
    method Open(level: QuizLevel, order: seq<string>, now: int)
      requires multiset(order) == multiset(Letters(level.targetWord) + level.distractors)
      modifies this
      ensures Valid()
      ensures this.level == level && placed == Empty(|level.targetWord|)
      ensures pool == Deal(order, now) && !isWordCorrect
      ensures pendingWins == old(pendingWins) && reported == old(reported)
      ensures pendingReports == old(pendingReports)
    {
      this.level := level;
      placed := Empty(|level.targetWord|);
      pool := Deal(order, now);
      isWordCorrect := false;
      FilledOfEmpty<string>(|level.targetWord|);
    }

    /** `handleDrop`: a drop that fills the last slot with the word spelled exactly schedules
        a win. It does not look at the lock itself; its callers do. */
    method HandleDrop(id: TileId, slot: int)
      modifies this
      ensures CurrentBoard() == DropOn(old(CurrentBoard()), id, slot)
      ensures pendingWins == old(pendingWins) +
        (if DropTakes(old(CurrentBoard()), id, slot) && Spells(CurrentBoard(), level.targetWord) then 1 else 0)
      ensures level == old(level) && isWordCorrect == old(isWordCorrect) && reported == old(reported)
      ensures pendingReports == old(pendingReports)
      ensures old(Valid()) ==> Valid()
    {
      ghost var before := CurrentBoard();
      if Valid() {
        DropConserves(before, id, slot);
      }
      var k := FindId(pool, id);
      if k.Some? && 0 <= slot < |placed| && placed[slot] == None {
        placed := placed[slot := Some(pool[k.value].ch)];
        pool := Without(pool, id);
        if Full(placed) && Join(Filled(placed), "") == level.targetWord {
          pendingWins := pendingWins + 1;
        }
      }
      assert CurrentBoard() == DropOn(before, id, slot);
    }

    /** A tile dragged onto a slot: the slot ignores it while it is locked, which it is once
        the word is correct, and passes it to `handleDrop` otherwise. */
    method Drop(id: TileId, slot: int)
      modifies this
      ensures CurrentBoard() == (if old(isWordCorrect) then old(CurrentBoard())
                                 else DropOn(old(CurrentBoard()), id, slot))
      ensures pendingWins == old(pendingWins) +
        (if !old(isWordCorrect) && DropTakes(old(CurrentBoard()), id, slot) && Spells(CurrentBoard(), level.targetWord)
         then 1 else 0)
      ensures level == old(level) && isWordCorrect == old(isWordCorrect) && reported == old(reported)
      ensures pendingReports == old(pendingReports)
      ensures old(Valid()) ==> Valid()
    {
      if !isWordCorrect {
        HandleDrop(id, slot);
      }
    }

    /** A click on a slot (`handleReturnLetter` behind the slot's own check that it holds a
        letter); ignored once the word is correct. */
    method ClickSlot(slot: int, now: int)
      modifies this
      ensures CurrentBoard() == (if old(isWordCorrect) then old(CurrentBoard())
                                 else ReturnFrom(old(CurrentBoard()), slot, now))
      ensures level == old(level) && isWordCorrect == old(isWordCorrect)
      ensures pendingWins == old(pendingWins) && reported == old(reported)
      ensures pendingReports == old(pendingReports)
      ensures old(Valid()) && FindId(old(pool), Returned(now)).None? ==> Valid()
    {
      ReturnConserves(CurrentBoard(), slot, now);
      if !isWordCorrect && 0 <= slot < |placed| && placed[slot].Some? && placed[slot].value != "" {
        var ch := placed[slot].value;
        placed := placed[slot := None];
        pool := pool + [Tile(Returned(now), ch)];
      }
    }

    /** The keyboard handler: ignored once the word is correct, otherwise a drop of the first
        matching pool letter into the first empty slot. */
    method KeyPress(key: string)
      modifies this
      ensures CurrentBoard() == (if old(isWordCorrect) then old(CurrentBoard())
                                 else AfterKey(old(CurrentBoard()), key))
      ensures pendingWins == old(pendingWins) +
        (if !old(isWordCorrect) && KeyTakes(old(CurrentBoard()), key) && Spells(CurrentBoard(), level.targetWord)
         then 1 else 0)
      ensures level == old(level) && isWordCorrect == old(isWordCorrect) && reported == old(reported)
      ensures pendingReports == old(pendingReports)
      ensures old(Valid()) ==> Valid()
    {
      if isWordCorrect {
        return;
      }
      var pressed := ToLower(key);
      if !IsLetterKey(pressed) {
        return;
      }
      var k := FindKey(pool, pressed);
      if k.None? {
        return;
      }
      var e := FirstEmpty(placed);
      if e.Some? {
        HandleDrop(pool[k.value].id, e.value);
      }
    }

    /** A scheduled win fires (`triggerWin`): the word is marked correct, which locks the
        board, and the completion is scheduled. */
    method FireWin()
      modifies this
      ensures old(pendingWins) > 0 ==>
        pendingWins == old(pendingWins) - 1 && isWordCorrect && pendingReports == old(pendingReports) + 1
      ensures old(pendingWins) == 0 ==>
        pendingWins == 0 && isWordCorrect == old(isWordCorrect) && pendingReports == old(pendingReports)
      ensures level == old(level) && CurrentBoard() == old(CurrentBoard()) && reported == old(reported)
      ensures old(Valid()) ==> Valid()
    {
      if pendingWins > 0 {
        pendingWins := pendingWins - 1;
        isWordCorrect := true;
        pendingReports := pendingReports + 1;
      }
    }

    /** A scheduled completion fires: the level reports 10 points. */
    method FireComplete()
      modifies this
      ensures old(pendingReports) > 0 ==>
        pendingReports == old(pendingReports) - 1 && reported == old(reported) + [10]
      ensures old(pendingReports) == 0 ==> pendingReports == 0 && reported == old(reported)
      ensures level == old(level) && CurrentBoard() == old(CurrentBoard())
      ensures isWordCorrect == old(isWordCorrect) && pendingWins == old(pendingWins)
      ensures old(Valid()) ==> Valid()
    {
      if pendingReports > 0 {
        pendingReports := pendingReports - 1;
        reported := reported + [10];
      }
    }
  }
}
