/** The built-in levels and the single-player time budget. */
module Constants {
  import opened Text
  import opened Types
  import LevelEditor

  /** Seconds available in a single-player game. */
  const GAME_DURATION: int := 120

  /** Every built-in picture is a 400-pixel-wide Unsplash photo: its address is this head,
      the photo's name and this tail. */
  const PHOTO_HEAD: string := "https://images.unsplash.com/photo-"
  const PHOTO_TAIL: string := "?auto=format&fit=crop&q=80&w=400"

  const LEVELS: seq<QuizLevel> := [
    QuizLevel(NumId(1), "There is a " + LevelEditor.BLANK + ".", "monkey",
      PHOTO_HEAD + "1540573133985-87b6da6d54a9" + PHOTO_TAIL,
      ["n", "e"], None),
    QuizLevel(NumId(2), "The cat " + LevelEditor.BLANK + " the fish.", "ate",
      PHOTO_HEAD + "1514888286974-6c03e2ca1dba" + PHOTO_TAIL,
      ["b", "d"],
      Some([PhonicsRule("Magic E", [0, 2], "text-pink-500", "The silent E makes the vowel say its name.")])),
    QuizLevel(NumId(3), "I love to bake a " + LevelEditor.BLANK + ".", "cake",
      PHOTO_HEAD + "1578985545062-69928b1d9587" + PHOTO_TAIL,
      ["p", "l"],
      Some([PhonicsRule("Magic E", [1, 3], "text-blue-500", "Long vowel 'a' and silent 'e'.")])),
    QuizLevel(NumId(4), "The " + LevelEditor.BLANK + " is bright today.", "sun",
      PHOTO_HEAD + "1504386106331-3e4e71712b38" + PHOTO_TAIL,
      ["m", "t"], None),
    QuizLevel(NumId(5), "Look at the big " + LevelEditor.BLANK + ".", "ship",
      PHOTO_HEAD + "1499856871958-5b9627545d1a" + PHOTO_TAIL,
      ["p", "z"],
      Some([PhonicsRule("Digraph sh", [0, 1], "text-orange-500", "S and H together make one sound: /sh/")]))
  ]

  /** The five levels have the distinct ids 1 to 5, in order. */
  lemma LevelIds()
    ensures |LEVELS| == 5
    ensures forall k :: 0 <= k < |LEVELS| ==> LEVELS[k].id == NumId(k + 1)
    ensures forall i, j :: 0 <= i < j < |LEVELS| ==> LEVELS[i].id != LEVELS[j].id
  {}

  /** Where the blank sits in each built-in sentence. */
  const BLANK_AT: seq<nat> := [11, 8, 17, 4, 16]

  /** A string made of a blank between two underscore-free parts contains the blank once. */
  lemma OnlyBlank(a: string, b: string)
    requires '_' !in a && '_' !in b
    ensures var s := a + LevelEditor.BLANK + b;
      Contains(s, LevelEditor.BLANK) && forall i :: OccursAt(s, LevelEditor.BLANK, i) ==> i == |a|
  {
    var s := a + LevelEditor.BLANK + b;
    assert OccursAt(s, LevelEditor.BLANK, |a|);
    forall i | OccursAt(s, LevelEditor.BLANK, i) ensures i == |a| {
      assert s[i] == s[i..i + 4][0] == '_';
      assert s[i + 3] == s[i..i + 4][3] == '_';
    }
  }

  /** Every built-in sentence contains the blank exactly once, so it passes the editor's
      sentence check. */
  lemma SentencesHaveOneBlank()
    ensures forall k :: 0 <= k < |LEVELS| ==>
      Contains(LEVELS[k].sentence, LevelEditor.BLANK) &&
      forall i :: OccursAt(LEVELS[k].sentence, LevelEditor.BLANK, i) ==> i == BLANK_AT[k]
  {
    forall k | 0 <= k < |LEVELS|
      ensures Contains(LEVELS[k].sentence, LevelEditor.BLANK)
      ensures forall i :: OccursAt(LEVELS[k].sentence, LevelEditor.BLANK, i) ==> i == BLANK_AT[k]
    {
      if k == 0 {
        OnlyBlank("There is a ", ".");
      } else if k == 1 {
        OnlyBlank("The cat ", " the fish.");
      } else if k == 2 {
        OnlyBlank("I love to bake a ", ".");
      } else if k == 3 {
        OnlyBlank("The ", " is bright today.");
      } else {
        OnlyBlank("Look at the big ", ".");
      }
    }
  }

  /** Every answer word is a non-empty run of lower-case letters. */
  lemma TargetWordsAreLowerCase()
    ensures forall k :: 0 <= k < |LEVELS| ==>
      LEVELS[k].targetWord != "" && forall j :: 0 <= j < |LEVELS[k].targetWord| ==> IsLowerAscii(LEVELS[k].targetWord[j])
  {}

  /** Every distractor is one character, neither a comma nor white space, so the editor's
      length filter keeps it and showing it in the form loses nothing. */
  lemma DistractorsAreSingleLetters()
    ensures forall k, d :: 0 <= k < |LEVELS| && d in LEVELS[k].distractors ==>
      |d| == 1 && d[0] != ',' && !IsSpace(d[0])
  {}

  /** Every highlighted position lies inside the answer word. */
  lemma PhonicsIndicesInsideWord()
    ensures forall k :: 0 <= k < |LEVELS| && LEVELS[k].phonicsRules.Some? ==>
      forall r, i :: r in LEVELS[k].phonicsRules.value && i in r.indices ==> 0 <= i < |LEVELS[k].targetWord|
  {}
}
