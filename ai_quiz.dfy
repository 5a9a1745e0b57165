/** Post-processing of generated quizzes: the text the language model returns is unwrapped
    from a Markdown code fence, parsed, and turned into a level whose word and distractors are
    lower-cased and whose vowels are highlighted. The web request, the JSON parser, the image
    URL and the random choices are parameters. */
module AiQuiz {
  import opened Text
  import opened Types

  // ---------------------------------------------------------------- code fences

  const FENCE := "```"
  /** What the first replacement, `/```json?\n?/g`, matches before its optional `n`. */
  const FENCE_JSO := "```jso"

  /** `s.replace(/```json?\n?/g, '')`: every "```jso", with the `n` and the line break that
      may follow it, is removed, scanning from the left. */
  function DropJsonFences(s: string): (r: string)
    ensures |r| <= |s|
    decreases |s|
  {
    if s == [] then []
    else if StartsWith(s, FENCE_JSO) then
      var a := s[6..];
      var b := if a != [] && a[0] == 'n' then a[1..] else a;
      var c := if b != [] && b[0] == '\n' then b[1..] else b;
      DropJsonFences(c)
    else [s[0]] + DropJsonFences(s[1..])
  }

  /** `s.replace(/```/g, '')`: every run of three backticks is removed, scanning from the
      left. */
  function DropFences(s: string): (r: string)
    ensures |r| <= |s|
    decreases |s|
  {
    if s == [] then []
    else if StartsWith(s, FENCE) then DropFences(s[3..])
    else [s[0]] + DropFences(s[1..])
  }

  /** The text handed to the JSON parser: the response trimmed and, when it opens with a code
      fence, with the fence markers removed. */
  function Unfenced(response: string): string
  {
    var t := Trim(response);
    if StartsWith(t, FENCE) then DropFences(DropJsonFences(t)) else t
  }

  /** No three backticks in a row. */
  predicate NoFence(s: string)
  {
    forall i :: 0 <= i < |s| - 2 ==> !(s[i] == '`' && s[i + 1] == '`' && s[i + 2] == '`')
  }

  /** A text opens with a fence exactly when its first three characters are backticks. */
  lemma FenceAt(s: string)
    ensures StartsWith(s, FENCE) <==> |s| >= 3 && s[0] == '`' && s[1] == '`' && s[2] == '`'
  {
    if |s| >= 3 {
      assert s[..3] == [s[0], s[1], s[2]];
    }
  }

  lemma NoFenceNotContained(s: string)
    requires NoFence(s)
    ensures !Contains(s, FENCE)
  {
    forall i | 0 <= i <= |s| - 3 ensures !OccursAt(s, FENCE, i) {
      FenceAt(s[i..]);
      assert s[i..][..3] == s[i..i + 3];
    }
  }

  /** The first character left after removing fences from a text that does not open with
      one is its own first character. */
  lemma DropFencesHead(s: string)
    requires s != [] && !StartsWith(s, FENCE)
    ensures DropFences(s) != [] && DropFences(s)[0] == s[0]
  {
  }

  /** After a backtick that does not open a fence, what the removal keeps does not start with
      two more backticks. */
  lemma NoFenceAfterBacktick(s: string)
    requires s != [] && !StartsWith(s, FENCE) && s[0] == '`'
    ensures var tail := DropFences(s[1..]); |tail| < 2 || tail[0] != '`' || tail[1] != '`'
  {
    var tail := DropFences(s[1..]);
    FenceAt(s);
    if |s| >= 2 {
      FenceAt(s[1..]);
      DropFencesHead(s[1..]);
      if |s| >= 3 && s[1] == '`' {
        FenceAt(s[2..]);
        assert tail == [s[1]] + DropFences(s[2..]);
        DropFencesHead(s[2..]);
      } else if s[1] == '`' {
        assert s[1..] == [s[1]];
      }
    }
  }

  /** A character put in front of a fence-free text makes a fence only when it is a backtick
      followed by two more. */
  lemma NoFenceCons(c: char, tail: string)
    requires NoFence(tail)
    requires c == '`' ==> |tail| < 2 || tail[0] != '`' || tail[1] != '`'
    ensures NoFence([c] + tail)
  {
    var r := [c] + tail;
    forall i | 0 <= i < |r| - 2 ensures !(r[i] == '`' && r[i + 1] == '`' && r[i + 2] == '`') {
      if i > 0 {
        assert r[i] == tail[i - 1] && r[i + 1] == tail[i] && r[i + 2] == tail[i + 1];
      }
    }
  }

  /** Removing the fences leaves no fence behind, even where the removal brings backticks
      together. */
  lemma {:induction false} DropFencesLeavesNone(s: string)
    ensures NoFence(DropFences(s))
    decreases |s|
  {
    if s == [] {
    } else if StartsWith(s, FENCE) {
      DropFencesLeavesNone(s[3..]);
    } else {
      DropFencesLeavesNone(s[1..]);
      if s[0] == '`' {
        NoFenceAfterBacktick(s);
      }
      NoFenceCons(s[0], DropFences(s[1..]));
    }
  }

  /** Text without backticks passes through both replacements unchanged. */
  lemma {:induction false} DropPlain(s: string, t: string)
    requires '`' !in s
    ensures DropJsonFences(s + t) == s + DropJsonFences(t)
    ensures DropFences(s + t) == s + DropFences(t)
    decreases |s|
  {
    if s != [] {
      var st := s + t;
      assert st[1..] == s[1..] + t;
      assert st[0] == s[0] && s[0] != '`';
      assert !StartsWith(st, FENCE_JSO) && !StartsWith(st, FENCE);
      DropPlain(s[1..], t);
      assert DropJsonFences(st) == [s[0]] + DropJsonFences(s[1..] + t);
      assert DropFences(st) == [s[0]] + DropFences(s[1..] + t);
      assert s == [s[0]] + s[1..];
    } else {
      assert s + t == t;
    }
  }

  /** A body without backticks, fenced as a JSON code block, is handed to the parser as the
      body followed by the line break before the closing fence. */
  lemma UnfencedOfJsonBlock(body: string)
    requires '`' !in body
    ensures Unfenced("```json\n" + body + "\n```") == body + "\n"
  {
    var fenced := "```json\n" + body + "\n```";
    var line := body + "\n";
    assert '`' !in line;
    TrimNoop(fenced);
    JsonOpening(line + FENCE);
    assert fenced == "```json\n" + (line + FENCE);
    DropPlain(line, FENCE);
    assert DropJsonFences(FENCE) == FENCE;
    assert DropFences(FENCE) == [];
    assert line + [] == line;
  }

  /** An opening "```json" line is removed whole. */
  lemma JsonOpening(rest: string)
    ensures StartsWith("```json\n" + rest, FENCE)
    ensures DropJsonFences("```json\n" + rest) == DropJsonFences(rest)
  {
    var fenced := "```json\n" + rest;
    assert fenced[..6] == FENCE_JSO && fenced[..3] == FENCE;
    assert fenced[6..][1..][1..] == rest;
  }

  /** Every fence marker is gone once the text opens with a fence; otherwise the trimmed text
      is parsed as it is. */
  lemma UnfencedHasNoFence(response: string)
    ensures StartsWith(Trim(response), FENCE) ==> !Contains(Unfenced(response), FENCE)
    ensures !StartsWith(Trim(response), FENCE) ==> Unfenced(response) == Trim(response)
  {
    if StartsWith(Trim(response), FENCE) {
      DropFencesLeavesNone(DropJsonFences(Trim(response)));
      NoFenceNotContained(Unfenced(response));
    }
  }

  // ---------------------------------------------------------------- the level

  predicate IsVowel(c: char)
  {
    c == 'a' || c == 'e' || c == 'i' || c == 'o' || c == 'u'
  }

  /** The positions of the vowels of `word`, ascending. */
  function Vowels(word: string): (r: seq<int>)
    decreases |word|
  {
    if word == [] then []
    else
      var n := |word| - 1;
      Vowels(word[..n]) + (if IsVowel(word[n]) then [n] else [])
  }

  /** Every listed position is in range and the list is strictly ascending. */
  lemma {:induction false} VowelsAscending(word: string)
    ensures forall k :: 0 <= k < |Vowels(word)| ==> 0 <= Vowels(word)[k] < |word|
    ensures forall j, k :: 0 <= j < k < |Vowels(word)| ==> Vowels(word)[j] < Vowels(word)[k]
    decreases |word|
  {
    if word != [] {
      var n := |word| - 1;
      var p := Vowels(word[..n]);
      VowelsAscending(word[..n]);
      assert Vowels(word) == p + (if IsVowel(word[n]) then [n] else []);
    }
  }

  /** Exactly the vowel positions are listed, each once, in ascending order. */
  lemma {:induction false} VowelsSpec(word: string)
    ensures forall i :: i in Vowels(word) <==> 0 <= i < |word| && IsVowel(word[i])
    ensures forall j, k :: 0 <= j < k < |Vowels(word)| ==> Vowels(word)[j] < Vowels(word)[k]
    ensures forall k :: 0 <= k < |Vowels(word)| ==> 0 <= Vowels(word)[k] < |word|
    decreases |word|
  {
    VowelsAscending(word);
    if word != [] {
      var n := |word| - 1;
      var w := word[..n];
      var p := Vowels(w);
      VowelsSpec(w);
      assert Vowels(word) == p + (if IsVowel(word[n]) then [n] else []);
      forall i ensures i in Vowels(word) <==> 0 <= i < |word| && IsVowel(word[i]) {
        if 0 <= i < n {
          assert w[i] == word[i];
        }
      }
    }
  }

  /** The highlighting loop over the lower-cased word. */
  method VowelIndices(word: string) returns (indices: seq<int>)
    ensures indices == Vowels(word)
  {
    indices := [];
    var i := 0;
    assert word[..0] == [];
    while i < |word|
      invariant 0 <= i <= |word| && indices == Vowels(word[..i])
    {
      assert word[..i + 1][..i] == word[..i];
      if word[i] in "aeiou" {
        indices := indices + [i];
      }
      i := i + 1;
    }
    assert word[..i] == word;
  }

  /** The indices a rule highlights: the vowel positions, or the first letter when the word
      has no vowel. */
  function Highlight(vowels: seq<int>): (r: seq<int>)
    ensures r != []
    ensures vowels != [] ==> r == vowels
    ensures vowels == [] ==> r == [0]
  {
    if |vowels| > 0 then vowels else [0]
  }

  /** The parsed reply. */
  datatype GeneratedQuiz = GeneratedQuiz(targetWord: string, sentence: string, distractors: seq<string>)

  datatype RuleInfo = RuleInfo(name: string, description: string)

  /** The rules the prompt picks from, with their descriptions. */
  const PHONICS_RULES := [
    RuleInfo("Short A", "The letter \"a\" makes the /æ/ sound"),
    RuleInfo("Short E", "The letter \"e\" makes the /ɛ/ sound"),
    RuleInfo("Short I", "The letter \"i\" makes the /ɪ/ sound"),
    RuleInfo("Short O", "The letter \"o\" makes the /ɒ/ sound"),
    RuleInfo("Short U", "The letter \"u\" makes the /ʌ/ sound"),
    RuleInfo("Silent E", "The silent \"e\" makes the vowel say its name"),
    RuleInfo("Double Letters", "Two same letters make one sound"),
    RuleInfo("Digraph CH", "\"ch\" makes the /tʃ/ sound"),
    RuleInfo("Digraph SH", "\"sh\" makes the /ʃ/ sound"),
    RuleInfo("Digraph TH", "\"th\" makes the /θ/ or /ð/ sound")
  ]

  const COLORS := ["#f59e0b", "#10b981", "#3b82f6", "#8b5cf6", "#ec4899", "#ef4444"]

  function LowerAll(ss: seq<string>): (r: seq<string>)
    ensures |r| == |ss| && forall k :: 0 <= k < |ss| ==> r[k] == ToLower(ss[k])
  {
    seq(|ss|, k requires 0 <= k < |ss| => ToLower(ss[k]))
  }

  /** The result of one generation request. The request fails (no key, a failed call, no
      text, or text the parser rejects) with `None`. */
  function Generated(apiKey: string, response: Option<string>, parse: string -> Option<GeneratedQuiz>,
                     rule: RuleInfo, color: string, imageUrl: string, now: int): Option<QuizLevel>
  {
    if apiKey == "" || response.None? || response.value == "" then None
    else match parse(Unfenced(response.value))
      case None => None
      case Some(g) =>
        var word := ToLower(g.targetWord);
        Some(QuizLevel(StrId("ai-" + IntToString(now)), g.sentence, word, imageUrl,
                       LowerAll(g.distractors),
                       Some([PhonicsRule(rule.name, Highlight(Vowels(word)), color, rule.description)])))
  }

  /** Without an API key nothing is generated; a generated level has a lower-case word and
      distractors, one rule, and at least one highlighted index. */
  lemma GeneratedShape(apiKey: string, response: Option<string>, parse: string -> Option<GeneratedQuiz>,
                       rule: RuleInfo, color: string, imageUrl: string, now: int)
    ensures apiKey == "" ==> Generated(apiKey, response, parse, rule, color, imageUrl, now).None?
    ensures var r := Generated(apiKey, response, parse, rule, color, imageUrl, now);
      r.Some? ==>
        && ToLower(r.value.targetWord) == r.value.targetWord
        && (forall k :: 0 <= k < |r.value.distractors| ==> ToLower(r.value.distractors[k]) == r.value.distractors[k])
        && r.value.phonicsRules.Some? && |r.value.phonicsRules.value| == 1
        && r.value.phonicsRules.value[0].indices != []
        && r.value.phonicsRules.value[0].name == rule.name
  {
    var r := Generated(apiKey, response, parse, rule, color, imageUrl, now);
    if r.Some? {
      var g := parse(Unfenced(response.value)).value;
      ToLowerIdempotent(g.targetWord);
      forall k | 0 <= k < |g.distractors| ensures ToLower(LowerAll(g.distractors)[k]) == LowerAll(g.distractors)[k] {
        ToLowerIdempotent(g.distractors[k]);
      }
    }
  }

  /** The requests' results, kept when present, in order. */
  function Present(results: seq<Option<QuizLevel>>): (r: seq<QuizLevel>)
    ensures |r| <= |results|
    decreases |results|
  {
    if results == [] then []
    else
      Present(results[..|results| - 1])
      + (if results[|results| - 1].Some? then [results[|results| - 1].value] else [])
  }

  lemma {:induction false} PresentSpec(results: seq<Option<QuizLevel>>)
    ensures forall q :: q in Present(results) <==> Some(q) in results
    decreases |results|
  {
    if results != [] {
      var init := results[..|results| - 1];
      PresentSpec(init);
      assert results == init + [results[|results| - 1]];
    }
  }

  /** `generateMultipleQuizzes`: `count` requests one after another; `results` are their
      outcomes in order. */
  method GenerateMultiple(count: int, results: seq<Option<QuizLevel>>) returns (quizzes: seq<QuizLevel>)
    requires count <= |results|
    ensures var n := if count < 0 then 0 else count;
      quizzes == Present(results[..n])
    ensures |quizzes| <= (if count < 0 then 0 else count)
  {
    quizzes := [];
    var i := 0;
    assert results[..0] == [];
    while i < count
      invariant 0 <= i <= (if count < 0 then 0 else count)
      invariant quizzes == Present(results[..i])
    {
      assert results[..i + 1][..i] == results[..i];
      var quiz := results[i];
      if quiz.Some? {
        quizzes := quizzes + [quiz.value];
      }
      i := i + 1;
    }
  }
}
