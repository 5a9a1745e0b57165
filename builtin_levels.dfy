/** How the built-in levels behave in the level editor. */
module BuiltInLevels {
  import opened Text
  import opened Types
  import Constants
  import LevelEditor

  /** A picture address starts with `h` and ends with `0`, so trimming keeps it. */
  lemma PhotoTrimmed(name: string)
    ensures Trim(Constants.PHOTO_HEAD + name + Constants.PHOTO_TAIL) == Constants.PHOTO_HEAD + name + Constants.PHOTO_TAIL
  {
    var u := Constants.PHOTO_HEAD + name + Constants.PHOTO_TAIL;
    assert u[0] == Constants.PHOTO_HEAD[0] == 'h';
    assert u[|u| - 1] == Constants.PHOTO_TAIL[|Constants.PHOTO_TAIL| - 1] == '0';
    TrimNoop(u);
  }

  /** The picture address of built-in level k + 1 is already trimmed. */
  lemma HintTrimmed(k: nat)
    requires k < |Constants.LEVELS|
    ensures Trim(Constants.LEVELS[k].imageHint) == Constants.LEVELS[k].imageHint
  {
    if k == 0 {
      PhotoTrimmed("1540573133985-87b6da6d54a9");
    } else if k == 1 {
      PhotoTrimmed("1514888286974-6c03e2ca1dba");
    } else if k == 2 {
      PhotoTrimmed("1578985545062-69928b1d9587");
    } else if k == 3 {
      PhotoTrimmed("1504386106331-3e4e71712b38");
    } else {
      PhotoTrimmed("1499856871958-5b9627545d1a");
    }
  }

  /** The sentence and the answer word of built-in level k + 1 are already trimmed. */
  lemma WordsTrimmed(k: nat)
    requires k < |Constants.LEVELS|
    ensures Trim(Constants.LEVELS[k].sentence) == Constants.LEVELS[k].sentence
    ensures Trim(Constants.LEVELS[k].targetWord) == Constants.LEVELS[k].targetWord
  {
    TrimNoop(Constants.LEVELS[k].sentence);
    TrimNoop(Constants.LEVELS[k].targetWord);
  }

  lemma BuiltInTextNormalised(k: nat)
    requires k < |Constants.LEVELS|
    ensures LevelEditor.TextNormalised(Constants.LEVELS[k])
  {
    Constants.SentencesHaveOneBlank();
    HintTrimmed(k);
    WordsTrimmed(k);
    Constants.TargetWordsAreLowerCase();
    LowerWordsAreLowered(Constants.LEVELS[k].targetWord);
  }

  lemma BuiltInDistractorsNormalised(k: nat)
    requires k < |Constants.LEVELS|
    ensures LevelEditor.DistractorsNormalised(Constants.LEVELS[k].distractors)
  {
    Constants.DistractorsAreSingleLetters();
    var ds := Constants.LEVELS[k].distractors;
    assert forall j :: 0 <= j < |ds| ==> ds[j] in ds;
  }

  lemma BuiltInRulesNormalised(k: nat)
    requires k < |Constants.LEVELS| && k != 2
    ensures LevelEditor.RulesNormalised(Constants.LEVELS[k].phonicsRules)
  {
    if k == 1 {
      assert LevelEditor.FindPreset("Magic E") == Some(LevelEditor.PHONICS_PRESETS[0]);
    } else if k == 4 {
      assert LevelEditor.FindPreset("Digraph sh") == Some(LevelEditor.PHONICS_PRESETS[1]);
    }
  }

  /** Levels 1, 2, 4 and 5 are in the editor's saved form. */
  lemma BuiltInLevelNormalised(k: nat)
    requires k < |Constants.LEVELS| && k != 2
    ensures LevelEditor.Normalised(Constants.LEVELS[k])
  {
    BuiltInTextNormalised(k);
    BuiltInDistractorsNormalised(k);
    BuiltInRulesNormalised(k);
  }

  /** Saving level k + 1 unchanged leaves any list alone in which it is the only entry
      with its id. */
  lemma LevelSurvivesEditing(k: nat, levels: seq<QuizLevel>, now: int)
    requires k < |Constants.LEVELS| && k != 2
    requires forall j :: 0 <= j < |levels| && levels[j].id == Constants.LEVELS[k].id ==> levels[j] == Constants.LEVELS[k]
    ensures LevelEditor.Save(LevelEditor.FormOf(Constants.LEVELS[k]), Some(Constants.LEVELS[k]), levels, now)
              == LevelEditor.Saved(Constants.LEVELS[k], levels)
  {
    BuiltInLevelNormalised(k);
    LevelEditor.EditWithoutChangesKeepsLevel(Constants.LEVELS[k], levels, now);
    LevelEditor.ReplaceByOwnEntry(levels, Constants.LEVELS[k]);
  }

  /** Levels 1, 2, 4 and 5 are in the editor's saved form: opening one in the editor and
      saving it unchanged gives it back. */
  lemma BuiltInLevelsSurviveEditing(now: int)
    ensures forall k :: 0 <= k < |Constants.LEVELS| && k != 2 ==>
      LevelEditor.Save(LevelEditor.FormOf(Constants.LEVELS[k]), Some(Constants.LEVELS[k]), Constants.LEVELS, now)
        == LevelEditor.Saved(Constants.LEVELS[k], Constants.LEVELS)
  {
    forall k | 0 <= k < |Constants.LEVELS| && k != 2
      ensures LevelEditor.Save(LevelEditor.FormOf(Constants.LEVELS[k]), Some(Constants.LEVELS[k]), Constants.LEVELS, now)
              == LevelEditor.Saved(Constants.LEVELS[k], Constants.LEVELS)
    {
      Constants.LevelIds();
      LevelSurvivesEditing(k, Constants.LEVELS, now);
    }
  }

  /** The rule a save rebuilds for level 3 is the Magic E preset's, at the level's own
      positions. */
  lemma LevelThreeRule()
    ensures var f := LevelEditor.FormOf(Constants.LEVELS[2]);
      LevelEditor.RuleFor(f.selectedPhonics, f.phonicsIndices)
        == Some([PhonicsRule("Magic E", [1, 3], "text-pink-500", "The silent E makes the vowel say its name.")])
  {
    LevelEditor.RuleRebuiltFromPreset(Constants.LEVELS[2]);
  }

  /** Level 3 carries a colour and description of its own for the Magic E rule; saving it
      from the editor, even unchanged and whatever the rest of the list, replaces them with
      the preset's. */
  lemma LevelThreeTakesPresetOnEdit(levels: seq<QuizLevel>, now: int)
    ensures var r := LevelEditor.Save(LevelEditor.FormOf(Constants.LEVELS[2]), Some(Constants.LEVELS[2]), levels, now);
      && r.Saved?
      && r.level.phonicsRules == Some([PhonicsRule("Magic E", [1, 3], "text-pink-500",
                                                   "The silent E makes the vowel say its name.")])
      && r.level == Constants.LEVELS[2].(phonicsRules := r.level.phonicsRules)
  {
    BuiltInTextNormalised(2);
    BuiltInDistractorsNormalised(2);
    LevelEditor.EditKeepsText(Constants.LEVELS[2], levels, now);
    LevelThreeRule();
  }
}
