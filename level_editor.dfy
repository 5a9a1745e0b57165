/** The level editor: a form whose fields are parsed into a level on save (validation,
    comma-separated lists, defaults), an upsert by id over the ordered level list, and
    deletion by id. */
module LevelEditor {
  import opened Text
  import opened Types

  datatype Preset = Preset(name: string, description: string, color: string)

  /** The phonics rules the form offers, in menu order. */
  const PHONICS_PRESETS: seq<Preset> := [
    Preset("Magic E", "The silent E makes the vowel say its name.", "text-pink-500"),
    Preset("Digraph sh", "S and H together make one sound: /sh/", "text-orange-500"),
    Preset("Digraph ch", "C and H together make one sound: /ch/", "text-blue-500"),
    Preset("Digraph th", "T and H together make one sound: /th/", "text-green-500"),
    Preset("Long vowel", "The vowel says its name.", "text-purple-500"),
    Preset("Short vowel", "The vowel makes a short sound.", "text-red-500")
  ]

  /** The picture used when the image field is left blank. */
  const DEFAULT_IMAGE: string := "https://images.unsplash.com/photo-1606567595334-d39972c85dfd?w=400"

  /** The placeholder every sentence must contain. */
  const BLANK: string := "____"

  /** The six text fields of the form. */
  datatype Form = Form(
    sentence: string,
    targetWord: string,
    imageHint: string,
    distractors: string,
    selectedPhonics: string,
    phonicsIndices: string)

  const EMPTY_FORM: Form := Form("", "", "", "", "", "")

  // ---------------------------------------------------------------- list fields

  /** `s.split(',').map(x => x.trim())` */
  function Pieces(s: string): (r: seq<string>)
    ensures |r| == |Split(s, ',')|
    ensures forall k :: 0 <= k < |r| ==> r[k] == Trim(Split(s, ',')[k])
  {
    var parts := Split(s, ',');
    seq(|parts|, k requires 0 <= k < |parts| => Trim(parts[k]))
  }

  /** `.filter(d => d.length === 1)` */
  function KeepSingles(xs: seq<string>): (r: seq<string>)
    ensures |r| <= |xs|
    ensures forall x :: x in r <==> x in xs && |x| == 1
  {
    if xs == [] then []
    else (if |xs[0]| == 1 then [xs[0]] else []) + KeepSingles(xs[1..])
  }

  /** The distractor field: the comma-separated items, trimmed, that are one character long. */
  function ParseDistractors(s: string): seq<string>
  {
    KeepSingles(Pieces(s))
  }

  /** `.map(parseInt).filter(i => !isNaN(i))` */
  function KeepParsed(xs: seq<string>): (r: seq<int>)
    ensures |r| <= |xs|
    ensures forall x :: x in xs && ParseInt(x).Some? ==> ParseInt(x).value in r
    ensures forall i :: i in r ==> exists x :: x in xs && ParseInt(x) == Some(i)
  {
    if xs == [] then []
    else
      var rest := KeepParsed(xs[1..]);
      assert forall i :: i in rest ==> exists x :: x in xs && ParseInt(x) == Some(i) by {
        forall i | i in rest ensures exists x :: x in xs && ParseInt(x) == Some(i) {
          var x :| x in xs[1..] && ParseInt(x) == Some(i);
          assert x in xs;
        }
      }
      match ParseInt(xs[0])
      case Some(v) => [v] + rest
      case None => rest
  }

  /** The index field: the comma-separated items that parse as integers, or `[0]` if none do. */
  function ParseIndices(s: string): (r: seq<int>)
    ensures |r| >= 1
    ensures KeepParsed(Pieces(s)) != [] ==> r == KeepParsed(Pieces(s))
    ensures KeepParsed(Pieces(s)) == [] ==> r == [0]
  {
    var parsed := KeepParsed(Pieces(s));
    if |parsed| > 0 then parsed else [0]
  }

  /** `PHONICS_PRESETS.find(p => p.name === name)` */
  function FindPresetIn(presets: seq<Preset>, name: string): (r: Option<Preset>)
    ensures r.Some? ==> r.value in presets && r.value.name == name
    ensures r.None? <==> forall p :: p in presets ==> p.name != name
  {
    if presets == [] then None
    else if presets[0].name == name then Some(presets[0])
    else FindPresetIn(presets[1..], name)
  }

  function FindPreset(name: string): Option<Preset>
  {
    FindPresetIn(PHONICS_PRESETS, name)
  }

  /** The rule a save attaches: one rule copied from the selected preset, with the parsed
      indices, when a known preset is selected; no rule otherwise. */
  function RuleFor(selected: string, indices: string): (r: Option<seq<PhonicsRule>>)
    ensures r.Some? <==> selected != "" && FindPreset(selected).Some?
    ensures r.Some? ==> var p := FindPreset(selected).value;
      r.value == [PhonicsRule(p.name, ParseIndices(indices), p.color, p.description)]
  {
    if selected == "" then None
    else match FindPreset(selected)
      case None => None
      case Some(p) => Some([PhonicsRule(p.name, ParseIndices(indices), p.color, p.description)])
  }

  // ---------------------------------------------------------------- the level list

  /** `levels.map(l => l.id === id ? level : l)` */
  function ReplaceById(levels: seq<QuizLevel>, id: LevelId, level: QuizLevel): seq<QuizLevel>
  {
    seq(|levels|, k requires 0 <= k < |levels| => if levels[k].id == id then level else levels[k])
  }

  /** `levels.filter(l => l.id !== id)` */
  function DeleteById(levels: seq<QuizLevel>, id: LevelId): (r: seq<QuizLevel>)
    ensures |r| <= |levels|
    ensures forall l :: l in r <==> l in levels && l.id != id
  {
    if levels == [] then []
    else (if levels[0].id != id then [levels[0]] else []) + DeleteById(levels[1..], id)
  }

  function Ids(levels: seq<QuizLevel>): seq<LevelId>
  {
    seq(|levels|, k requires 0 <= k < |levels| => levels[k].id)
  }

  // ---------------------------------------------------------------- save

  datatype SaveOutcome =
    | MissingBlank                                          // the sentence has no `____`
    | MissingWord                                           // the answer is blank
    | Saved(level: QuizLevel, levels: seq<QuizLevel>)       // the level and the new list

  /** `handleSave`, given the level being edited (if any), the current list and the clock. */
  function Save(f: Form, editing: Option<QuizLevel>, levels: seq<QuizLevel>, now: int): SaveOutcome
  {
    if !Contains(f.sentence, BLANK) then MissingBlank
    else if Trim(f.targetWord) == "" then MissingWord
    else
      var hint := Trim(f.imageHint);
      var level := QuizLevel(
        if editing.Some? then editing.value.id else NumId(now),
        Trim(f.sentence),
        ToLower(Trim(f.targetWord)),
        if hint == "" then DEFAULT_IMAGE else hint,
        ParseDistractors(f.distractors),
        RuleFor(f.selectedPhonics, f.phonicsIndices));
      Saved(level, if editing.Some? then ReplaceById(levels, level.id, level) else levels + [level])
  }

  /** A save is refused exactly when the sentence lacks the blank or the answer is all white
      space; otherwise the level is built from the trimmed fields with the stated defaults,
      keeps the edited level's id (or takes the clock's), and replaces the entries with that
      id or is appended. */
  lemma SaveSpec(f: Form, editing: Option<QuizLevel>, levels: seq<QuizLevel>, now: int)
    ensures var r := Save(f, editing, levels, now);
      && (r == MissingBlank <==> !Contains(f.sentence, BLANK))
      && (r == MissingWord <==> Contains(f.sentence, BLANK) && IsBlank(f.targetWord))
      && (r.Saved? ==>
        && r.level.id == (if editing.Some? then editing.value.id else NumId(now))
        && r.level.sentence == Trim(f.sentence)
        && r.level.targetWord == ToLower(Trim(f.targetWord)) && r.level.targetWord != ""
        && r.level.imageHint == (if Trim(f.imageHint) == "" then DEFAULT_IMAGE else Trim(f.imageHint))
        && r.level.distractors == ParseDistractors(f.distractors)
        && r.level.phonicsRules == RuleFor(f.selectedPhonics, f.phonicsIndices)
        && r.levels == (if editing.Some? then ReplaceById(levels, editing.value.id, r.level)
                        else levels + [r.level]))
  {
    TrimEmptyIffBlank(f.targetWord);
  }

  // ---------------------------------------------------------------- loading a level

  function IndexStrings(indices: seq<int>): (r: seq<string>)
    ensures |r| == |indices|
    ensures forall k :: 0 <= k < |r| ==> r[k] == IntToString(indices[k])
  {
    seq(|indices|, k requires 0 <= k < |indices| => IntToString(indices[k]))
  }

  /** `loadLevelToForm`: the form showing `level`; an empty rule list shows no rule, and
      only the first rule of several is shown. */
  function FormOf(level: QuizLevel): Form
  {
    var hasRule := level.phonicsRules.Some? && |level.phonicsRules.value| > 0;
    Form(level.sentence, level.targetWord, level.imageHint, Join(level.distractors, ", "),
      if hasRule then level.phonicsRules.value[0].name else "",
      if hasRule then Join(IndexStrings(level.phonicsRules.value[0].indices), ", ") else "")
  }

  // ---------------------------------------------------------------- properties

  /** Splitting `a, b, c` on commas and trimming gives back the items, when they carry no
      comma and no white space at either end. */
  lemma {:induction false} PiecesOfJoin(parts: seq<string>)
    requires |parts| >= 1
    requires forall k :: 0 <= k < |parts| ==> ',' !in parts[k] && Trim(parts[k]) == parts[k]
    ensures Pieces(Join(parts, ", ")) == parts
  {
    if |parts| == 1 {
      SplitWithoutSeparator(parts[0], ',');
    } else {
      var rest := parts[1..];
      var tail := Join(rest, ", ");
      PiecesOfJoin(rest);
      assert Join(parts, ", ") == parts[0] + [','] + ([' '] + tail);
      SplitAtFirstSeparator(parts[0], ',', [' '] + tail);
      var st := Split(tail, ',');
      assert ([' '] + tail)[1..] == tail;
      assert Split([' '] + tail, ',') == [[' '] + st[0]] + st[1..];
      TrimAfterSpace(st[0]);
      assert Trim(st[0]) == rest[0];
      var ps := Pieces(Join(parts, ", "));
      assert |ps| == |parts|;
      forall k | 0 <= k < |parts| ensures ps[k] == parts[k] {
        if k >= 2 {
          assert ps[k] == Trim(st[k - 1]) == Pieces(tail)[k - 1];
        }
      }
    }
  }

  lemma {:induction false} KeepSinglesOfSingles(xs: seq<string>)
    requires forall k :: 0 <= k < |xs| ==> |xs[k]| == 1
    ensures KeepSingles(xs) == xs
  {
    if xs != [] {
      KeepSinglesOfSingles(xs[1..]);
    }
  }

  /** The filter keeps the kept items in their original order, each as often as it occurs:
      filtering a concatenation is concatenating the filtered halves, and a single item is
      kept exactly when it is one character long. */
  lemma {:induction false} KeepSinglesAppend(a: seq<string>, b: seq<string>)
    ensures KeepSingles(a + b) == KeepSingles(a) + KeepSingles(b)
  {
    if a == [] {
      assert a + b == b;
    } else {
      assert (a + b)[1..] == a[1..] + b;
      KeepSinglesAppend(a[1..], b);
    }
  }

  /** One item on its own: kept exactly when it is one character long. */
  lemma KeepSinglesOne(x: string)
    ensures KeepSingles([x]) == (if |x| == 1 then [x] else [])
  {
    assert [x][1..] == [];
  }

  /** The same for the indices: parsing a concatenation is concatenating the parsed halves,
      so the parsed indices keep the order in which they were written. */
  lemma {:induction false} KeepParsedAppend(a: seq<string>, b: seq<string>)
    ensures KeepParsed(a + b) == KeepParsed(a) + KeepParsed(b)
  {
    if a == [] {
      assert a + b == b;
    } else {
      assert (a + b)[1..] == a[1..] + b;
      KeepParsedAppend(a[1..], b);
    }
  }

  lemma {:induction false} KeepParsedOfRendered(indices: seq<int>)
    ensures KeepParsed(IndexStrings(indices)) == indices
  {
    if indices != [] {
      ParseIntOfIntToString(indices[0]);
      assert IndexStrings(indices)[1..] == IndexStrings(indices[1..]);
      KeepParsedOfRendered(indices[1..]);
    }
  }

  /** A distractor list shown in the form (`join(', ')`) and saved again is unchanged, when
      each distractor is one character other than a comma or white space. */
  lemma DistractorsRoundTrip(ds: seq<string>)
    requires forall k :: 0 <= k < |ds| ==> |ds[k]| == 1 && ds[k][0] != ',' && !IsSpace(ds[k][0])
    ensures ParseDistractors(Join(ds, ", ")) == ds
  {
    if ds == [] {
      assert Pieces("") == [""];
    } else {
      forall k | 0 <= k < |ds| ensures ',' !in ds[k] && Trim(ds[k]) == ds[k] {
        TrimNoop(ds[k]);
      }
      PiecesOfJoin(ds);
      KeepSinglesOfSingles(ds);
    }
  }

  /** An index list shown in the form and saved again is unchanged; an empty one comes
      back as `[0]`. */
  lemma IndicesRoundTrip(indices: seq<int>)
    ensures ParseIndices(Join(IndexStrings(indices), ", ")) == (if indices == [] then [0] else indices)
  {
    var strs := IndexStrings(indices);
    if indices == [] {
      assert Pieces("") == [""];
      assert ParseInt("") == None;
    } else {
      forall k | 0 <= k < |strs| ensures ',' !in strs[k] && Trim(strs[k]) == strs[k] {
        TrimIntToString(indices[k]);
        NoCommaInIntToString(indices[k]);
      }
      PiecesOfJoin(strs);
      KeepParsedOfRendered(indices);
    }
  }

  lemma NoCommaInIntToString(i: int)
    ensures ',' !in IntToString(i)
  {
    var n: nat := if i < 0 then -i else i;
    NatToStringDigits(n);
    var s := IntToString(i);
    forall k | 0 <= k < |s| ensures s[k] != ',' {
      if i < 0 && k > 0 {
        assert s[k] == NatToString(n)[k - 1];
      }
    }
  }

  /** A level already in saved form: what a save of its own form would produce. */
  predicate Normalised(level: QuizLevel)
  {
    TextNormalised(level) && DistractorsNormalised(level.distractors) && RulesNormalised(level.phonicsRules)
  }

  /** Sentence, answer word and picture as a save leaves them. */
  predicate TextNormalised(level: QuizLevel)
  {
    && Contains(level.sentence, BLANK) && Trim(level.sentence) == level.sentence
    && level.targetWord != "" && Trim(level.targetWord) == level.targetWord
    && ToLower(level.targetWord) == level.targetWord
    && level.imageHint != "" && Trim(level.imageHint) == level.imageHint
  }

  /** Distractors that survive being shown comma-separated and parsed back. */
  predicate DistractorsNormalised(distractors: seq<string>)
  {
    forall k :: 0 <= k < |distractors| ==>
      |distractors[k]| == 1 && distractors[k][0] != ',' && !IsSpace(distractors[k][0])
  }

  /** No rule, or the one rule a save builds from a preset. */
  predicate RulesNormalised(rules: Option<seq<PhonicsRule>>)
  {
    match rules
    case None => true
    case Some(rs) =>
      && |rs| == 1 && |rs[0].indices| >= 1
      && FindPreset(rs[0].name) == Some(Preset(rs[0].name, rs[0].description, rs[0].color))
  }

  /** A level showing a preset's rule (with at least one index) comes back from a save with
      that rule's name and indices and the preset's colour and description. */
  lemma RuleRebuiltFromPreset(level: QuizLevel)
    requires level.phonicsRules.Some? && |level.phonicsRules.value| >= 1
    requires |level.phonicsRules.value[0].indices| >= 1
    requires FindPreset(level.phonicsRules.value[0].name).Some?
    ensures var rule := level.phonicsRules.value[0];
      var p := FindPreset(rule.name).value;
      RuleFor(FormOf(level).selectedPhonics, FormOf(level).phonicsIndices)
        == Some([PhonicsRule(rule.name, rule.indices, p.color, p.description)])
  {
    var f := FormOf(level);
    var rule := level.phonicsRules.value[0];
    assert f.selectedPhonics == rule.name;
    assert f.phonicsIndices == Join(IndexStrings(rule.indices), ", ");
    IndicesRoundTrip(rule.indices);
  }

  lemma RuleRoundTrip(level: QuizLevel)
    requires RulesNormalised(level.phonicsRules)
    ensures RuleFor(FormOf(level).selectedPhonics, FormOf(level).phonicsIndices) == level.phonicsRules
  {
    if level.phonicsRules.Some? {
      RuleRebuiltFromPreset(level);
      assert [level.phonicsRules.value[0]] == level.phonicsRules.value;
    }
  }

  /** Saving a level's own form unchanged keeps its id, text, picture and distractors when
      these are in saved form; only the rule is rebuilt. */
  lemma EditKeepsText(level: QuizLevel, levels: seq<QuizLevel>, now: int)
    requires TextNormalised(level) && DistractorsNormalised(level.distractors)
    ensures var f := FormOf(level);
      var kept := level.(phonicsRules := RuleFor(f.selectedPhonics, f.phonicsIndices));
      Save(f, Some(level), levels, now) == Saved(kept, ReplaceById(levels, level.id, kept))
  {
    var f := FormOf(level);
    assert f.sentence == level.sentence && f.targetWord == level.targetWord;
    assert Trim(f.imageHint) == level.imageHint;
    DistractorsRoundTrip(level.distractors);
    assert ParseDistractors(f.distractors) == level.distractors;
  }

  /** Opening a level in the editor and saving it without changes gives back the same level,
      at the same places in the list, when it is in saved form. */
  lemma EditWithoutChangesKeepsLevel(level: QuizLevel, levels: seq<QuizLevel>, now: int)
    requires Normalised(level)
    ensures Save(FormOf(level), Some(level), levels, now) == Saved(level, ReplaceById(levels, level.id, level))
  {
    EditKeepsText(level, levels, now);
    RuleRoundTrip(level);
    assert level.(phonicsRules := level.phonicsRules) == level;
  }

  /** Replacing an entry by itself, when every entry with its id is that entry, changes
      nothing. */
  lemma ReplaceByOwnEntry(levels: seq<QuizLevel>, level: QuizLevel)
    requires forall k :: 0 <= k < |levels| && levels[k].id == level.id ==> levels[k] == level
    ensures ReplaceById(levels, level.id, level) == levels
  {}

  /** Replacing by id keeps length and order: exactly the entries with that id change. */
  lemma ReplaceByIdSpec(levels: seq<QuizLevel>, id: LevelId, level: QuizLevel)
    ensures |ReplaceById(levels, id, level)| == |levels|
    ensures forall k :: 0 <= k < |levels| ==>
      (levels[k].id == id ==> ReplaceById(levels, id, level)[k] == level) &&
      (levels[k].id != id ==> ReplaceById(levels, id, level)[k] == levels[k])
  {}

  /** Saving an edited level whose id is unused changes nothing at all. */
  lemma ReplaceAbsentId(levels: seq<QuizLevel>, id: LevelId, level: QuizLevel)
    requires id !in Ids(levels)
    ensures ReplaceById(levels, id, level) == levels
  {
    forall k | 0 <= k < |levels| ensures levels[k].id != id {
      assert Ids(levels)[k] == levels[k].id;
    }
  }

  /** Deletion commutes with concatenation, so the surviving entries keep their order. */
  lemma {:induction false} DeleteByIdAppend(a: seq<QuizLevel>, b: seq<QuizLevel>, id: LevelId)
    ensures DeleteById(a + b, id) == DeleteById(a, id) + DeleteById(b, id)
  {
    if a == [] {
      assert a + b == b;
    } else {
      assert (a + b)[1..] == a[1..] + b;
      DeleteByIdAppend(a[1..], b, id);
    }
  }

  /** Deleting an id no entry carries changes nothing. */
  lemma {:induction false} DeleteAbsentId(levels: seq<QuizLevel>, id: LevelId)
    requires forall k :: 0 <= k < |levels| ==> levels[k].id != id
    ensures DeleteById(levels, id) == levels
  {
    if levels != [] {
      DeleteAbsentId(levels[1..], id);
    }
  }

  /** A level created by the editor and then deleted is gone, and the rest is as before,
      provided its id was new. */
  lemma CreateThenDelete(f: Form, levels: seq<QuizLevel>, now: int)
    requires forall k :: 0 <= k < |levels| ==> levels[k].id != NumId(now)
    requires Save(f, None, levels, now).Saved?
    ensures DeleteById(Save(f, None, levels, now).levels, NumId(now)) == levels
  {
    var r := Save(f, None, levels, now);
    DeleteByIdAppend(levels, [r.level], NumId(now));
    DeleteAbsentId(levels, NumId(now));
  }

  // ---------------------------------------------------------------- the editor

  class Editor {
    /** The level list the editor works on; a save or delete replaces it. */
    var levels: seq<QuizLevel>
    var editingLevel: Option<QuizLevel>
    var isCreating: bool
    var form: Form
    var imagePrompt: string
    var generationError: string

    constructor (initial: seq<QuizLevel>)
      ensures levels == initial && editingLevel == None && !isCreating && form == EMPTY_FORM
      ensures imagePrompt == "" && generationError == ""
    {
      levels := initial;
      editingLevel := None;
      isCreating := false;
      form := EMPTY_FORM;
      imagePrompt := "";
      generationError := "";
    }

    /** `resetForm` */
    method ResetForm()
      modifies this`form, this`imagePrompt, this`generationError, this`editingLevel, this`isCreating
      ensures form == EMPTY_FORM && imagePrompt == "" && generationError == ""
      ensures editingLevel == None && !isCreating
    {
      form := EMPTY_FORM;
      imagePrompt := "";
      generationError := "";
      editingLevel := None;
      isCreating := false;
    }

    /** `loadLevelToForm`: start editing `level`. */
    method LoadLevelToForm(level: QuizLevel)
      modifies this`form, this`imagePrompt, this`generationError, this`editingLevel, this`isCreating
      ensures form == FormOf(level) && imagePrompt == "" && generationError == ""
      ensures editingLevel == Some(level) && !isCreating
    {
      form := FormOf(level);
      imagePrompt := "";
      generationError := "";
      editingLevel := Some(level);
      isCreating := false;
    }

    /** `startCreating` */
    method StartCreating()
      modifies this`form, this`imagePrompt, this`generationError, this`editingLevel, this`isCreating
      ensures form == EMPTY_FORM && imagePrompt == "" && generationError == ""
      ensures editingLevel == None && isCreating
    {
      ResetForm();
      isCreating := true;
    }

    /** `handleSave` at clock value `now`: a rejected form is left as it is (the alert
        is not modelled); an accepted one replaces the list and clears the form. */
    method HandleSave(now: int) returns (r: SaveOutcome)
      modifies this
      ensures r == Save(old(form), old(editingLevel), old(levels), now)
      ensures r.Saved? ==> levels == r.levels && form == EMPTY_FORM && editingLevel == None && !isCreating
                           && imagePrompt == "" && generationError == ""
      ensures !r.Saved? ==> levels == old(levels) && form == old(form) && editingLevel == old(editingLevel)
                            && isCreating == old(isCreating) && imagePrompt == old(imagePrompt)
                            && generationError == old(generationError)
    {
      r := Save(form, editingLevel, levels, now);
      if r.Saved? {
        levels := r.levels;
        ResetForm();
      }
    }

    /** `handleDelete` after the confirmation dialog answered `confirmed`. */
    method HandleDelete(id: LevelId, confirmed: bool)
      modifies this`levels
      ensures levels == (if confirmed then DeleteById(old(levels), id) else old(levels))
    {
      if confirmed {
        levels := DeleteById(levels, id);
      }
    }
  }
}
