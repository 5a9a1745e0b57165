/** The versus memory game: the answer word, upper-cased, becomes a deck of two cards per
    letter (the letter itself and its 1-based position), shuffled once; each player turns
    cards over two at a time in a copy of their own, a letter card and the position card of
    the same letter make a pair, and the player who pairs every letter reports the word. */
module MemoryMatchGame {
  import opened Text
  import opened Types
  import opened Slots
  import Shuffle

  datatype Kind = LetterCard | PositionCard

  /** Card ids: `letter-<i>` or `position-<i>` when the deck is built, and `p1-<id>` or
      `p2-<id>` in a player's copy. */
  datatype CardId = Built(kind: Kind, index: nat) | Dealt(side: Side, inner: CardId)

  /** What a card shows and which letter of the word it belongs to. */
  datatype Face = Face(id: CardId, content: string, kind: Kind, letterIndex: nat)

  /** A card on a player's table: its face and whether it is turned over or paired. */
  datatype Card = Card(face: Face, isFlipped: bool, isMatched: bool)

  /** What the half-second (pair) or one-second (no pair) timer does once it fires. The
      timer closes over the word and the match count of the moment it was set. */
  datatype Pending = MatchFound(letterIndex: nat, newMatches: nat, word: string) | Mismatch(ids: seq<CardId>)

  /** One player's cards, the cards they have turned this turn, their pairs and whether they
      may turn a card. */
  datatype Hand = Hand(cards: seq<Card>, selected: seq<Card>, matches: nat, turn: bool)

  // ---------------------------------------------------------------- the deck

  function LetterFace(i: nat, c: char): Face
  {
    Face(Built(LetterCard, i), [c], LetterCard, i)
  }

  function PositionFace(i: nat): Face
  {
    Face(Built(PositionCard, i), IntToString(i + 1), PositionCard, i)
  }

  /** The cards `generateCards` pushes before the shuffle: for each letter, its letter card
      and then its position card. */
  function BuiltFaces(word: string): (r: seq<Face>)
    ensures |r| == 2 * |word|
    decreases |word|
  {
    if word == [] then []
    else BuiltFaces(word[..|word| - 1]) + [LetterFace(|word| - 1, word[|word| - 1]), PositionFace(|word| - 1)]
  }

  /** Card 2i is letter i and card 2i + 1 is its position card. */
  lemma {:induction false} BuiltFacesAt(word: string)
    ensures |BuiltFaces(word)| == 2 * |word|
    ensures forall i :: 0 <= i < |word| ==>
      BuiltFaces(word)[2 * i] == LetterFace(i, word[i]) && BuiltFaces(word)[2 * i + 1] == PositionFace(i)
    decreases |word|
  {
    if word != [] {
      var front := word[..|word| - 1];
      BuiltFacesAt(front);
      forall i | 0 <= i < |front| ensures front[i] == word[i] {}
    }
  }

  /** The two cards of letter `i`, taken from `BuiltFacesAt`. */
  lemma BuiltPair(word: string, i: nat)
    requires i < |word|
    ensures 2 * i + 1 < |BuiltFaces(word)|
    ensures BuiltFaces(word)[2 * i] == LetterFace(i, word[i])
    ensures BuiltFaces(word)[2 * i + 1] == PositionFace(i)
  {
    BuiltFacesAt(word);
  }

  /** Card `2 * i + r` of the built deck is the letter card of letter `i` when `r` is 0 and
      its position card when `r` is 1. */
  lemma BuiltCard(word: string, x: nat, i: nat, r: nat)
    requires x == 2 * i + r && r < 2 && i < |word|
    ensures x < |BuiltFaces(word)|
    ensures BuiltFaces(word)[x].letterIndex == i
    ensures BuiltFaces(word)[x].kind == (if r == 0 then LetterCard else PositionCard)
    ensures BuiltFaces(word)[x].id == Built(BuiltFaces(word)[x].kind, i)
  {
    BuiltPair(word, i);
    if r == 0 {
      assert x == 2 * i;
    } else {
      assert x == 2 * i + 1;
    }
  }

  /** Card x of the built deck, described by its letter `x / 2` and its kind `x % 2`. */
  lemma BuiltFace(word: string, x: nat)
    requires x < 2 * |word|
    ensures BuiltFaces(word)[x].letterIndex == x / 2 < |word|
    ensures BuiltFaces(word)[x].kind == (if x % 2 == 0 then LetterCard else PositionCard)
    ensures BuiltFaces(word)[x].id == Built(BuiltFaces(word)[x].kind, x / 2)
  {
    var i, r := x / 2, x % 2;
    assert x == 2 * i + r && 0 <= r < 2 && i < |word|;
    BuiltCard(word, x, i, r);
  }

  /** Every card of the built deck has its own id. */
  lemma BuiltIdsApart(word: string)
    ensures Shuffle.Apart(BuiltFaces(word), (f: Face) => f.id)
  {
    var faces := BuiltFaces(word);
    forall x, y | 0 <= x < y < |faces| ensures faces[x].id != faces[y].id {
      BuiltFace(word, x);
      BuiltFace(word, y);
      assert x == 2 * (x / 2) + x % 2 && y == 2 * (y / 2) + y % 2;
    }
  }

  /** Two cards pair up when they belong to the same letter and are of different kinds. */
  predicate IsPair(a: Face, b: Face)
  {
    a.letterIndex == b.letterIndex && a.kind != b.kind
  }

  /** In the built deck, two different cards pair up exactly when they are the two cards
      of one letter. */
  lemma PairsAreLetters(word: string, x: nat, y: nat)
    requires x < 2 * |word| && y < 2 * |word| && x != y
    ensures IsPair(BuiltFaces(word)[x], BuiltFaces(word)[y]) <==> x / 2 == y / 2
  {
    BuiltFace(word, x);
    BuiltFace(word, y);
    assert x == 2 * (x / 2) + x % 2 && y == 2 * (y / 2) + y % 2;
  }

  /** `generateCards`: build the deck, then shuffle it in place. */
  method GenerateCards(word: string, draws: seq<int>) returns (deck: seq<Face>)
    requires Shuffle.ValidDraws(draws, 2 * |word|)
    ensures deck == Shuffle.Shuffled(BuiltFaces(word), draws)
    ensures |deck| == 2 * |word| && Shuffle.Apart(deck, (f: Face) => f.id)
  {
    var cards: seq<Face> := [];
    var i := 0;
    while i < |word|
      invariant 0 <= i <= |word|
      invariant cards == BuiltFaces(word[..i])
    {
      assert word[..i + 1][..i] == word[..i];
      cards := cards + [LetterFace(i, word[i]), PositionFace(i)];
      i := i + 1;
    }
    assert word[..|word|] == word;
    var a := new Face[|cards|](k requires 0 <= k < |cards| => cards[k]);
    assert a[..] == cards;
    Shuffle.FisherYates(a, draws);
    deck := a[..];
    DeckIsBuiltCards(word, draws);
  }

  /** The shuffled deck holds the built cards, each once, none sharing an id. */
  lemma DeckIsBuiltCards(word: string, draws: seq<int>)
    requires Shuffle.ValidDraws(draws, 2 * |word|)
    ensures var deck := Shuffle.Shuffled(BuiltFaces(word), draws);
      && |deck| == 2 * |word| && multiset(deck) == multiset(BuiltFaces(word))
      && Shuffle.Apart(deck, (f: Face) => f.id)
  {
    BuiltFacesAt(word);
    Shuffle.ShuffledIsPermutation(BuiltFaces(word), draws);
    BuiltIdsApart(word);
    Shuffle.ShuffledKeepsApart(BuiltFaces(word), draws, (f: Face) => f.id);
  }

  // ---------------------------------------------------------------- one player's table

  /** A player's copy of the deck: every card face down under that player's id. */
  function DealtCards(side: Side, deck: seq<Face>): (r: seq<Card>)
    ensures |r| == |deck|
    ensures forall k :: 0 <= k < |r| ==> r[k] == Card(deck[k].(id := Dealt(side, deck[k].id)), false, false)
  {
    seq(|deck|, k requires 0 <= k < |deck| => Card(deck[k].(id := Dealt(side, deck[k].id)), false, false))
  }

  /** The state a level starts every player in. */
  function FreshHand(side: Side, deck: seq<Face>): Hand
  {
    Hand(DealtCards(side, deck), [], 0, true)
  }

  function FindCard(cards: seq<Card>, id: CardId): Option<nat>
  {
    FindFirst(cards, (c: Card) => c.face.id == id)
  }

  /** A click turns a card over when the player may turn one and the card is on their
      table, face down and not yet paired. */
  predicate ClickTakes(h: Hand, id: CardId)
  {
    h.turn && FindCard(h.cards, id).Some?
    && !h.cards[FindCard(h.cards, id).value].isFlipped && !h.cards[FindCard(h.cards, id).value].isMatched
  }

  function FlipById(cards: seq<Card>, id: CardId): (r: seq<Card>)
    ensures |r| == |cards|
    ensures forall k :: 0 <= k < |r| ==> r[k] == if cards[k].face.id == id then cards[k].(isFlipped := true) else cards[k]
  {
    seq(|cards|, k requires 0 <= k < |cards| =>
      if cards[k].face.id == id then cards[k].(isFlipped := true) else cards[k])
  }

  /** The card a taking click adds to the selection: the clicked card, turned over. */
  function Picked(h: Hand, id: CardId): Card
    requires ClickTakes(h, id)
  {
    h.cards[FindCard(h.cards, id).value].(isFlipped := true)
  }

  /** `handleCardClick` on one player's hand (the `disabled` and `gameStarted` guards are the
      caller's): the card is turned over and selected, and a second selection locks the
      player's turn. */
  function ClickOn(h: Hand, id: CardId): (r: Hand)
    ensures !ClickTakes(h, id) ==> r == h
    ensures ClickTakes(h, id) ==>
      && r.cards == FlipById(h.cards, id) && r.selected == h.selected + [Picked(h, id)]
      && r.matches == h.matches && r.turn == (|r.selected| != 2)
  {
    if !ClickTakes(h, id) then h
    else
      var selected := h.selected + [Picked(h, id)];
      Hand(FlipById(h.cards, id), selected, h.matches, |selected| != 2)
  }

  /** The timer a taking click sets: none before the second card, otherwise the pair or
      no-pair outcome of the two selected cards. */
  function Scheduled(h: Hand, id: CardId, word: string): seq<Pending>
  {
    if !ClickTakes(h, id) || |h.selected| + 1 != 2 then []
    else
      var first, second := h.selected[0], Picked(h, id);
      if IsPair(first.face, second.face) then [MatchFound(first.face.letterIndex, h.matches + 1, word)]
      else [Mismatch([first.face.id, second.face.id])]
  }

  function MarkMatched(cards: seq<Card>, letterIndex: nat): (r: seq<Card>)
    ensures |r| == |cards|
    ensures forall k :: 0 <= k < |r| ==>
      r[k] == if cards[k].face.letterIndex == letterIndex then cards[k].(isMatched := true) else cards[k]
  {
    seq(|cards|, k requires 0 <= k < |cards| =>
      if cards[k].face.letterIndex == letterIndex then cards[k].(isMatched := true) else cards[k])
  }

  function Unflip(cards: seq<Card>, ids: seq<CardId>): (r: seq<Card>)
    ensures |r| == |cards|
    ensures forall k :: 0 <= k < |r| ==> r[k] == if cards[k].face.id in ids then cards[k].(isFlipped := false) else cards[k]
  {
    seq(|cards|, k requires 0 <= k < |cards| =>
      if cards[k].face.id in ids then cards[k].(isFlipped := false) else cards[k])
  }

  /** What a fired timer does to the hand: it pairs off every card of the letter and sets the
      match count it computed, or turns the two selected cards back; either way the selection
      is cleared and the turn unlocked. */
  function Resolved(h: Hand, p: Pending): Hand
  {
    match p
    case MatchFound(li, n, _) => Hand(MarkMatched(h.cards, li), [], n, true)
    case Mismatch(ids) => Hand(Unflip(h.cards, ids), [], h.matches, true)
  }

  /** The cards are the dealt deck with only their flags changed. */
  predicate DealtShape(cards: seq<Card>, side: Side, deck: seq<Face>)
  {
    |cards| == |deck| && forall k :: 0 <= k < |cards| ==> cards[k].face == deck[k].(id := Dealt(side, deck[k].id))
  }

  /** The turn is open exactly while fewer than two cards are selected. */
  predicate Locked(h: Hand)
  {
    |h.selected| <= 2 && (h.turn <==> |h.selected| < 2)
  }

  predicate HandOk(h: Hand, side: Side, deck: seq<Face>)
  {
    DealtShape(h.cards, side, deck) && Locked(h)
  }

  // ---------------------------------------------------------------- properties of a move

  /** A fresh hand is the dealt deck, face down, with the turn open. */
  lemma FreshHandOk(side: Side, deck: seq<Face>)
    ensures HandOk(FreshHand(side, deck), side, deck)
    ensures forall k :: 0 <= k < |deck| ==> !FreshHand(side, deck).cards[k].isFlipped && !FreshHand(side, deck).cards[k].isMatched
  {
  }

  /** Every player's copy carries distinct ids when the deck does. */
  lemma DealtIdsApart(cards: seq<Card>, side: Side, deck: seq<Face>)
    requires DealtShape(cards, side, deck) && Shuffle.Apart(deck, (f: Face) => f.id)
    ensures Shuffle.Apart(cards, (c: Card) => c.face.id)
  {
    forall x, y | 0 <= x < y < |cards| ensures cards[x].face.id != cards[y].face.id {
      assert deck[x].id != deck[y].id;
    }
  }

  /** With distinct ids, a taking click turns over exactly the clicked card. */
  lemma FlipTurnsOne(cards: seq<Card>, id: CardId)
    requires Shuffle.Apart(cards, (c: Card) => c.face.id) && FindCard(cards, id).Some?
    ensures var k := FindCard(cards, id).value;
      FlipById(cards, id) == cards[k := cards[k].(isFlipped := true)]
  {
    var k := FindCard(cards, id).value;
    forall j | 0 <= j < |cards| && j != k ensures cards[j].face.id != id {
      if j < k {
        assert cards[j].face.id != cards[k].face.id;
      } else {
        assert cards[k].face.id != cards[j].face.id;
      }
    }
  }

  /** With distinct ids, turning back the two selected cards changes those two cards only. */
  lemma UnflipTurnsTwo(cards: seq<Card>, x: nat, y: nat)
    requires Shuffle.Apart(cards, (c: Card) => c.face.id) && x < |cards| && y < |cards|
    ensures Unflip(cards, [cards[x].face.id, cards[y].face.id])
      == cards[x := cards[x].(isFlipped := false)][y := cards[y].(isFlipped := false)]
  {
    var r := Unflip(cards, [cards[x].face.id, cards[y].face.id]);
    var s := cards[x := cards[x].(isFlipped := false)][y := cards[y].(isFlipped := false)];
    forall j | 0 <= j < |cards| ensures r[j] == s[j] {
      if j != x && j != y {
        if j < x { assert cards[j].face.id != cards[x].face.id; } else { assert cards[x].face.id != cards[j].face.id; }
        if j < y { assert cards[j].face.id != cards[y].face.id; } else { assert cards[y].face.id != cards[j].face.id; }
      }
    }
  }

  /** A click keeps the cards' faces and the turn lock. */
  lemma ClickKeeps(h: Hand, id: CardId, side: Side, deck: seq<Face>)
    requires HandOk(h, side, deck)
    ensures HandOk(ClickOn(h, id), side, deck)
  {
  }

  /** A second selection always schedules a timer, and only a second selection does. */
  lemma SecondPickSchedules(h: Hand, id: CardId, word: string)
    requires Locked(h) && ClickTakes(h, id)
    ensures |Scheduled(h, id, word)| == (if |h.selected| == 1 then 1 else 0)
    ensures !ClickOn(h, id).turn <==> |h.selected| == 1
    ensures |h.selected| == 1 ==>
      var first, second := h.selected[0].face, Picked(h, id).face;
      && (Scheduled(h, id, word)[0].MatchFound? <==> IsPair(first, second))
      && (IsPair(first, second) ==> Scheduled(h, id, word)[0] == MatchFound(first.letterIndex, h.matches + 1, word))
      && (!IsPair(first, second) ==> Scheduled(h, id, word)[0] == Mismatch([first.id, second.id]))
  {
  }

  /** A fired timer keeps the cards' faces and reopens the turn with nothing selected. */
  lemma ResolvedKeeps(h: Hand, p: Pending, side: Side, deck: seq<Face>)
    requires DealtShape(h.cards, side, deck)
    ensures HandOk(Resolved(h, p), side, deck)
    ensures Resolved(h, p).turn && Resolved(h, p).selected == []
  {
  }

  /** Once a pair is resolved, both of its cards are paired off, and so is every other card
      of that letter. */
  lemma PairResolvedMatchesBoth(h: Hand, a: Card, b: Card, word: string)
    requires a.face.letterIndex == b.face.letterIndex
    ensures var r := Resolved(h, MatchFound(a.face.letterIndex, h.matches + 1, word));
      && r.matches == h.matches + 1
      && forall k :: 0 <= k < |r.cards| && (r.cards[k].face == a.face || r.cards[k].face == b.face) ==> r.cards[k].isMatched
  {
  }

  // ---------------------------------------------------------------- the game

  class MemoryMatch {
    /** `targetWord`: the level's answer word, upper-cased. */
    var word: string
    var deck: seq<Face>
    var hand1: Hand
    var hand2: Hand
    var gameStarted: bool
    /** The timers set by second selections and not yet fired, with the player they belong to. */
    var pending: seq<(Side, Pending)>
    /** The words reported through `onPlayer1Answer` / `onPlayer2Answer`, in order. */
    var answers: seq<(Side, string)>

    function HandOf(side: Side): Hand
      reads this
    {
      if side == One then hand1 else hand2
    }

    predicate Valid()
      reads this
    {
      && |deck| == 2 * |word| && Shuffle.Apart(deck, (f: Face) => f.id)
      && HandOk(hand1, One, deck) && HandOk(hand2, Two, deck)
    }

    /** A fresh game for `level`, dealt from the shuffle `draws`, waiting for its start timer. */
    constructor(level: QuizLevel, draws: seq<int>)
      requires Shuffle.ValidDraws(draws, 2 * |level.targetWord|)
      ensures word == ToUpper(level.targetWord)
      ensures deck == Shuffle.Shuffled(BuiltFaces(word), draws)
      ensures hand1 == FreshHand(One, deck) && hand2 == FreshHand(Two, deck)
      ensures !gameStarted && pending == [] && answers == []
      ensures Valid()
    {
      var w := ToUpper(level.targetWord);
      var d := GenerateCards(w, draws);
      FreshHandOk(One, d);
      FreshHandOk(Two, d);
      word := w;
      deck := d;
      hand1 := FreshHand(One, d);
      hand2 := FreshHand(Two, d);
      gameStarted := false;
      pending := [];
      answers := [];
    }

    /** The one-second start timer fires. */
    method Start()
      modifies this
      ensures gameStarted
      ensures word == old(word) && deck == old(deck) && hand1 == old(hand1) && hand2 == old(hand2)
      ensures pending == old(pending) && answers == old(answers)
    {
      gameStarted := true;
    }

    /** A new level: a fresh deck and fresh hands. The started flag and any timer still
        running are left as they are: the level change clears no click timer. */
    method ChangeLevel(level: QuizLevel, draws: seq<int>)
      requires Shuffle.ValidDraws(draws, 2 * |level.targetWord|)
      modifies this
      ensures word == ToUpper(level.targetWord)
      ensures deck == Shuffle.Shuffled(BuiltFaces(word), draws)
      ensures hand1 == FreshHand(One, deck) && hand2 == FreshHand(Two, deck)
      ensures gameStarted == old(gameStarted) && pending == old(pending) && answers == old(answers)
      ensures Valid()
    {
      var w := ToUpper(level.targetWord);
      var d := GenerateCards(w, draws);
      FreshHandOk(One, d);
      FreshHandOk(Two, d);
      word := w;
      deck := d;
      hand1 := FreshHand(One, d);
      hand2 := FreshHand(Two, d);
    }

    /** `handleCardClick(id, side)`: ignored while disabled or before the start; otherwise the
        player's hand takes the click and a second selection sets its timer. */
    method Click(side: Side, id: CardId, disabled: bool)
      requires Valid()
      modifies this
      ensures var taken := !disabled && old(gameStarted);
        && HandOf(side) == (if taken then ClickOn(old(HandOf(side)), id) else old(HandOf(side)))
        && pending == old(pending) + (if taken then Pairs(side, Scheduled(old(HandOf(side)), id, word)) else [])
      ensures HandOf(side.Other()) == old(HandOf(side.Other()))
      ensures word == old(word) && deck == old(deck) && gameStarted == old(gameStarted) && answers == old(answers)
      ensures Valid()
    {
      if disabled || !gameStarted {
        return;
      }
      var h := HandOf(side);
      var nh := ClickOn(h, id);
      var timers := Pairs(side, Scheduled(h, id, word));
      ClickKeeps(h, id, side, deck);
      if side == One {
        hand1 := nh;
        assert HandOk(hand2, Two, deck);
      } else {
        hand2 := nh;
        assert HandOk(hand1, One, deck);
      }
      pending := pending + timers;
    }

    /** Timer `k` fires: its outcome applies to the current hand of its player, and a pair
        that brings the count it computed to the length of the word it closed over reports
        that word. */
    method Fire(k: nat)
      requires Valid() && k < |pending|
      modifies this
      ensures var (side, p) := old(pending[k]);
        && HandOf(side) == Resolved(old(HandOf(side)), p)
        && HandOf(side.Other()) == old(HandOf(side.Other()))
        && answers == old(answers) + (if p.MatchFound? && p.newMatches == |p.word| then [(side, p.word)] else [])
      ensures pending == old(pending[..k] + pending[k + 1..])
      ensures word == old(word) && deck == old(deck) && gameStarted == old(gameStarted)
      ensures Valid()
    {
      var (side, p) := pending[k];
      var h := HandOf(side);
      var nh := Resolved(h, p);
      ResolvedKeeps(h, p, side, deck);
      if side == One {
        hand1 := nh;
        assert HandOk(hand2, Two, deck);
      } else {
        hand2 := nh;
        assert HandOk(hand1, One, deck);
      }
      pending := pending[..k] + pending[k + 1..];
      if p.MatchFound? && p.newMatches == |p.word| {
        answers := answers + [(side, p.word)];
      }
    }
  }

  /** The timers, tagged with the player who set them. */
  function Pairs(side: Side, ps: seq<Pending>): (r: seq<(Side, Pending)>)
    ensures |r| == |ps| && forall i :: 0 <= i < |r| ==> r[i] == (side, ps[i])
  {
    seq(|ps|, i requires 0 <= i < |ps| => (side, ps[i]))
  }
}
