/** String operations with the semantics of the JavaScript built-ins the game uses:
    `toLowerCase`/`toUpperCase` (on the ASCII letters), `trim` (the ECMAScript white space
    and line terminator set), `split` on one separator character, `join`, `includes`,
    `startsWith`, the truncating `%` operator and decimal rendering of numbers. */
module Text {

  datatype Option<T> = None | Some(value: T)

  // ---------------------------------------------------------------- case mapping

  predicate IsUpperAscii(c: char) { 'A' <= c <= 'Z' }
  predicate IsLowerAscii(c: char) { 'a' <= c <= 'z' }

  function LowerChar(c: char): char
  {
    if IsUpperAscii(c) then (c as int + 32) as char else c
  }

  function UpperChar(c: char): char
  {
    if IsLowerAscii(c) then (c as int - 32) as char else c
  }

  /** `s.toLowerCase()` on the ASCII letters. */
  function ToLower(s: string): string
  {
    seq(|s|, i requires 0 <= i < |s| => LowerChar(s[i]))
  }

  /** `s.toUpperCase()` on the ASCII letters. */
  function ToUpper(s: string): string
  {
    seq(|s|, i requires 0 <= i < |s| => UpperChar(s[i]))
  }

  /** Case mapping keeps the length, leaves no ASCII capital after lower-casing and no ASCII
      small letter after upper-casing, leaves every other character alone, and either
      mapping undoes the other up to that mapping. */
  lemma CaseMapping(s: string)
    ensures |ToLower(s)| == |s| && |ToUpper(s)| == |s|
    ensures forall i :: 0 <= i < |s| ==> !IsUpperAscii(ToLower(s)[i]) && !IsLowerAscii(ToUpper(s)[i])
    ensures forall i :: 0 <= i < |s| && !IsUpperAscii(s[i]) && !IsLowerAscii(s[i]) ==>
      ToLower(s)[i] == s[i] && ToUpper(s)[i] == s[i]
    ensures ToUpper(ToLower(s)) == ToUpper(s) && ToLower(ToUpper(s)) == ToLower(s)
  {
  }

  lemma LowerCharIdempotent(c: char)
    ensures LowerChar(LowerChar(c)) == LowerChar(c)
    ensures !IsUpperAscii(LowerChar(c))
  {}

  lemma ToLowerIdempotent(s: string)
    ensures ToLower(ToLower(s)) == ToLower(s)
  {
    forall i | 0 <= i < |s| ensures ToLower(ToLower(s))[i] == ToLower(s)[i] {
      LowerCharIdempotent(s[i]);
    }
  }

  /** Lower-casing changes nothing in a string without upper-case letters. */
  lemma LowerWordsAreLowered(s: string)
    requires forall j :: 0 <= j < |s| ==> !IsUpperAscii(s[j])
    ensures ToLower(s) == s
  {}

  lemma ToLowerAppend(a: string, b: string)
    ensures ToLower(a + b) == ToLower(a) + ToLower(b)
  {}

  /** Upper-casing both sides compares the same pairs as lower-casing both sides. */
  lemma UpperEqIffLowerEq(a: string, b: string)
    ensures (ToUpper(a) == ToUpper(b)) <==> (ToLower(a) == ToLower(b))
  {
    if ToUpper(a) == ToUpper(b) {
      assert |a| == |b|;
      forall i | 0 <= i < |a| ensures ToLower(a)[i] == ToLower(b)[i] {
        assert ToUpper(a)[i] == ToUpper(b)[i];
      }
    }
    if ToLower(a) == ToLower(b) {
      assert |a| == |b|;
      forall i | 0 <= i < |a| ensures ToUpper(a)[i] == ToUpper(b)[i] {
        assert ToLower(a)[i] == ToLower(b)[i];
      }
    }
  }

  // ---------------------------------------------------------------- white space

  /** The characters `String.prototype.trim` removes: ECMAScript WhiteSpace
      (TAB, VT, FF, SP, NBSP, ZWNBSP and the Zs category) and LineTerminator (LF, CR, LS, PS). */
  predicate IsSpace(c: char)
  {
    || ('\t' <= c <= '\r')
    || c == ' '
    || c == '\U{00A0}' || c == '\U{1680}'
    || ('\U{2000}' <= c <= '\U{200A}')
    || c == '\U{2028}' || c == '\U{2029}' || c == '\U{202F}' || c == '\U{205F}'
    || c == '\U{3000}' || c == '\U{FEFF}'
  }

  predicate IsBlank(s: string)
  {
    forall i :: 0 <= i < |s| ==> IsSpace(s[i])
  }

  function TrimStart(s: string): string
  {
    if s != [] && IsSpace(s[0]) then TrimStart(s[1..]) else s
  }

  function TrimEnd(s: string): string
  {
    if s != [] && IsSpace(s[|s| - 1]) then TrimEnd(s[..|s| - 1]) else s
  }

  /** `s.trim()` */
  function Trim(s: string): string
  {
    TrimEnd(TrimStart(s))
  }

  /** How many white-space characters `TrimStart` removes. */
  function LeadingSpaces(s: string): (n: nat)
    ensures n <= |s|
  {
    if s != [] && IsSpace(s[0]) then 1 + LeadingSpaces(s[1..]) else 0
  }

  /** How many white-space characters `TrimEnd` removes. */
  function TrailingSpaces(s: string): (n: nat)
    ensures n <= |s|
  {
    if s != [] && IsSpace(s[|s| - 1]) then 1 + TrailingSpaces(s[..|s| - 1]) else 0
  }

  lemma {:induction false} TrimStartSpec(s: string)
    ensures TrimStart(s) == s[LeadingSpaces(s)..]
    ensures IsBlank(s[..LeadingSpaces(s)])
    ensures TrimStart(s) == [] || !IsSpace(TrimStart(s)[0])
  {
    if s != [] && IsSpace(s[0]) {
      TrimStartSpec(s[1..]);
      var k := LeadingSpaces(s[1..]);
      assert s[1..][k..] == s[k + 1..];
      var blank := s[..k + 1];
      forall i | 0 <= i < k + 1 ensures IsSpace(blank[i]) {
        if i > 0 {
          assert blank[i] == s[1..][..k][i - 1];
        }
      }
    }
  }

  lemma {:induction false} TrimEndSpec(s: string)
    ensures TrimEnd(s) == s[..|s| - TrailingSpaces(s)]
    ensures IsBlank(s[|s| - TrailingSpaces(s)..])
    ensures TrimEnd(s) == [] || !IsSpace(TrimEnd(s)[|TrimEnd(s)| - 1])
  {
    if s != [] && IsSpace(s[|s| - 1]) {
      var p := s[..|s| - 1];
      TrimEndSpec(p);
      var k := |p| - TrailingSpaces(p);
      assert p[..k] == s[..k];
      forall i | k <= i < |s| ensures IsSpace(s[i]) {
        if i < |s| - 1 {
          assert s[i] == p[k..][i - k];
        }
      }
    }
  }

  lemma {:induction false} TrimEndKeepsFirst(s: string)
    requires s != [] && !IsSpace(s[0])
    ensures TrimEnd(s) != [] && TrimEnd(s)[0] == s[0]
  {
    if IsSpace(s[|s| - 1]) {
      assert |s| > 1;
      TrimEndKeepsFirst(s[..|s| - 1]);
    }
  }

  lemma {:induction false} BlankTrimStart(s: string)
    requires IsBlank(s)
    ensures TrimStart(s) == []
  {
    if s != [] {
      assert IsSpace(s[0]);
      BlankTrimStart(s[1..]);
    }
  }

  /** The trimmed string is empty exactly when the input is all white space: this is the
      `if (!x.trim())` guard used throughout the game. */
  lemma TrimEmptyIffBlank(s: string)
    ensures Trim(s) == [] <==> IsBlank(s)
  {
    if IsBlank(s) {
      BlankTrimStart(s);
    }
    if Trim(s) == [] {
      TrimStartSpec(s);
      if TrimStart(s) != [] {
        TrimEndKeepsFirst(TrimStart(s));
      }
      assert s[..LeadingSpaces(s)] == s;
    }
  }

  /** The trimmed string has no white space at either end. */
  lemma TrimEnds(s: string)
    ensures Trim(s) != [] ==> !IsSpace(Trim(s)[0]) && !IsSpace(Trim(s)[|Trim(s)| - 1])
  {
    TrimStartSpec(s);
    TrimEndSpec(TrimStart(s));
    if Trim(s) != [] {
      TrimEndKeepsFirst(TrimStart(s));
    }
  }

  lemma {:induction false} TrimStartOfLower(s: string)
    ensures TrimStart(ToLower(s)) == ToLower(TrimStart(s))
  {
    if s != [] {
      assert ToLower(s)[0] == LowerChar(s[0]);
      assert ToLower(s)[1..] == ToLower(s[1..]);
      if IsSpace(s[0]) { TrimStartOfLower(s[1..]); }
    }
  }

  lemma {:induction false} TrimEndOfLower(s: string)
    ensures TrimEnd(ToLower(s)) == ToLower(TrimEnd(s))
  {
    if s != [] {
      assert ToLower(s)[|s| - 1] == LowerChar(s[|s| - 1]);
      assert ToLower(s)[..|s| - 1] == ToLower(s[..|s| - 1]);
      if IsSpace(s[|s| - 1]) { TrimEndOfLower(s[..|s| - 1]); }
    }
  }

  /** Lower-casing never creates or removes white space, so `s.toLowerCase().trim()` and
      `s.trim().toLowerCase()` agree. */
  lemma TrimLowerCommute(s: string)
    ensures Trim(ToLower(s)) == ToLower(Trim(s))
  {
    TrimStartOfLower(s);
    TrimEndOfLower(TrimStart(s));
  }

  // ---------------------------------------------------------------- searching

  /** `s.startsWith(p)` */
  predicate StartsWith(s: string, p: string)
  {
    |p| <= |s| && s[..|p|] == p
  }

  /** `p` occurs in `s` starting at position `i`. */
  predicate OccursAt(s: string, p: string, i: int)
  {
    0 <= i <= |s| - |p| && s[i..i + |p|] == p
  }

  /** `s.includes(p)` */
  predicate Contains(s: string, p: string)
  {
    exists i :: 0 <= i <= |s| - |p| && OccursAt(s, p, i)
  }

  // ---------------------------------------------------------------- split and join

  /** `s.split(sep)` for a one-character separator: the pieces between separators, an
      empty piece for each pair of adjacent separators, so always at least one piece. */
  function Split(s: string, sep: char): (r: seq<string>)
    ensures |r| >= 1
  {
    if s == [] then [""]
    else
      var rest := Split(s[1..], sep);
      if s[0] == sep then [""] + rest else [[s[0]] + rest[0]] + rest[1..]
  }

  /** `parts.join(sep)` */
  function Join(parts: seq<string>, sep: string): string
  {
    if |parts| == 0 then ""
    else if |parts| == 1 then parts[0]
    else parts[0] + sep + Join(parts[1..], sep)
  }

  lemma {:induction false} SplitPiecesHaveNoSeparator(s: string, sep: char)
    ensures forall k :: 0 <= k < |Split(s, sep)| ==> sep !in Split(s, sep)[k]
  {
    if s != [] {
      SplitPiecesHaveNoSeparator(s[1..], sep);
    }
  }

  lemma JoinPrepend(a: string, parts: seq<string>, sep: string)
    requires |parts| >= 1
    ensures Join([a + parts[0]] + parts[1..], sep) == a + Join(parts, sep)
  {
    if |parts| > 1 {
      assert ([a + parts[0]] + parts[1..])[1..] == parts[1..];
    }
  }

  /** Splitting and re-joining on the same separator gives the input back. */
  lemma {:induction false} JoinSplit(s: string, sep: char)
    ensures Join(Split(s, sep), [sep]) == s
  {
    if s != [] {
      var rest := Split(s[1..], sep);
      JoinSplit(s[1..], sep);
      if s[0] == sep {
        assert ([""] + rest)[1..] == rest;
      } else {
        JoinPrepend([s[0]], rest, [sep]);
      }
      assert s == [s[0]] + s[1..];
    }
  }

  lemma {:induction false} SplitWithoutSeparator(a: string, sep: char)
    requires sep !in a
    ensures Split(a, sep) == [a]
  {
    if a != [] {
      SplitWithoutSeparator(a[1..], sep);
      assert a == [a[0]] + a[1..];
    }
  }

  lemma {:induction false} SplitAtFirstSeparator(a: string, sep: char, b: string)
    requires sep !in a
    ensures Split(a + [sep] + b, sep) == [a] + Split(b, sep)
  {
    var s := a + [sep] + b;
    if a == [] {
      assert s[1..] == b;
    } else {
      assert s[1..] == a[1..] + [sep] + b;
      SplitAtFirstSeparator(a[1..], sep, b);
      assert [a[0]] + a[1..] == a;
    }
  }

  /** Joining separator-free pieces with a one-character separator and splitting again
      gives the pieces back. */
  lemma {:induction false} SplitJoin(parts: seq<string>, sep: char)
    requires |parts| >= 1
    requires forall k :: 0 <= k < |parts| ==> sep !in parts[k]
    ensures Split(Join(parts, [sep]), sep) == parts
  {
    if |parts| == 1 {
      SplitWithoutSeparator(parts[0], sep);
    } else {
      SplitJoin(parts[1..], sep);
      SplitAtFirstSeparator(parts[0], sep, Join(parts[1..], [sep]));
      assert [parts[0]] + parts[1..] == parts;
    }
  }

  // ---------------------------------------------------------------- numbers

  function DigitChar(d: nat): char
    requires d < 10
  {
    ('0' as int + d) as char
  }

  /** `String(n)` / `` `${n}` `` for a natural number. */
  function NatToString(n: nat): (r: string)
    ensures |r| >= 1
    decreases n
  {
    if n < 10 then [DigitChar(n)] else NatToString(n / 10) + [DigitChar(n % 10)]
  }

  /** JavaScript's `a % b`: the remainder takes the sign of the dividend. */
  function JsRem(a: int, b: int): (r: int)
    requires b > 0
    ensures a >= 0 ==> 0 <= r < b
    ensures a < 0 ==> -b < r <= 0
  {
    if a >= 0 then a % b else -((-a) % b)
  }

  /** `String(i)` for an integer. */
  function IntToString(i: int): (r: string)
    ensures |r| >= 1
  {
    if i < 0 then "-" + NatToString(-i) else NatToString(i)
  }

  // ---------------------------------------------------------------- the alphabet

  /** The `k`-th capital letter: the `k`-th character of `'ABCDEFGHIJKLMNOPQRSTUVWXYZ'`. */
  function AlphabetLetter(k: nat): (c: char)
    requires k < 26
    ensures 'A' <= c <= 'Z'
  {
    ('A' as int + k) as char
  }

  /** A stream of draws from the 26-letter alphabet. */
  predicate ValidPicks(picks: seq<nat>)
  {
    forall k :: 0 <= k < |picks| ==> picks[k] < 26
  }

  // ---------------------------------------------------------------- parseInt

  /** The value of `c` as a digit in bases up to 36; 36 when it is no digit at all. */
  function DigitValue(c: char): (v: nat)
    ensures v <= 36
  {
    if '0' <= c <= '9' then c as int - '0' as int
    else if 'a' <= c <= 'z' then c as int - 'a' as int + 10
    else if 'A' <= c <= 'Z' then c as int - 'A' as int + 10
    else 36
  }

  /** The digit values of the longest prefix of `s` made of digits of base `radix`. */
  function LeadingDigits(s: string, radix: nat): (ds: seq<nat>)
    ensures |ds| <= |s|
  {
    if s != [] && DigitValue(s[0]) < radix then [DigitValue(s[0])] + LeadingDigits(s[1..], radix) else []
  }

  /** A digit sequence read most significant first, starting from `acc`. */
  function ValueFrom(acc: nat, ds: seq<nat>, radix: nat): nat
    decreases |ds|
  {
    if ds == [] then acc else ValueFrom(acc * radix + ds[0], ds[1..], radix)
  }

  /** The unsigned part of `parseInt`: a `0x`/`0X` prefix selects base 16, then the
      longest run of digits is read; no digits at all gives `None`. */
  function ParseUnsigned(u: string): Option<nat>
  {
    var hex := |u| >= 2 && u[0] == '0' && (u[1] == 'x' || u[1] == 'X');
    var radix := if hex then 16 else 10;
    var ds := LeadingDigits(if hex then u[2..] else u, radix);
    if ds == [] then None else Some(ValueFrom(0, ds, radix))
  }

  /** `parseInt(s)` without a radix: leading white space, an optional sign, then the
      unsigned part; `NaN` is `None`, and a result of `-0` is the number 0. */
  function ParseInt(s: string): Option<int>
  {
    var t := TrimStart(s);
    var negative := t != [] && t[0] == '-';
    var u := if t != [] && (t[0] == '-' || t[0] == '+') then t[1..] else t;
    match ParseUnsigned(u)
    case None => None
    case Some(v) => var i: int := v; Some(if negative then -i else i)
  }

  /** The decimal digits of `n`, most significant first. */
  function DecimalDigits(n: nat): seq<nat>
    decreases n
  {
    if n < 10 then [n] else DecimalDigits(n / 10) + [n % 10]
  }

  lemma {:induction false} ValueFromSnoc(acc: nat, ds: seq<nat>, d: nat, radix: nat)
    ensures ValueFrom(acc, ds + [d], radix) == ValueFrom(acc, ds, radix) * radix + d
    decreases |ds|
  {
    if ds == [] {
    } else {
      assert (ds + [d])[1..] == ds[1..] + [d];
      ValueFromSnoc(acc * radix + ds[0], ds[1..], d, radix);
    }
  }

  lemma {:induction false} DecimalDigitsValue(n: nat)
    ensures ValueFrom(0, DecimalDigits(n), 10) == n
    decreases n
  {
    if n >= 10 {
      DecimalDigitsValue(n / 10);
      ValueFromSnoc(0, DecimalDigits(n / 10), n % 10, 10);
    }
  }

  predicate AllDecimal(s: string)
  {
    forall k :: 0 <= k < |s| ==> '0' <= s[k] <= '9'
  }

  lemma {:induction false} LeadingDigitsAppend(a: string, b: string, radix: nat)
    requires forall k :: 0 <= k < |a| ==> DigitValue(a[k]) < radix
    ensures LeadingDigits(a + b, radix) == LeadingDigits(a, radix) + LeadingDigits(b, radix)
  {
    if a != [] {
      assert (a + b)[1..] == a[1..] + b;
      LeadingDigitsAppend(a[1..], b, radix);
    } else {
      assert a + b == b;
    }
  }

  /** The decimal rendering of `n` consists of digits, and reading them gives its digits. */
  lemma {:induction false} NatToStringDigits(n: nat)
    ensures AllDecimal(NatToString(n))
    ensures LeadingDigits(NatToString(n), 10) == DecimalDigits(n)
    decreases n
  {
    var c := DigitChar(n % 10);
    assert LeadingDigits([c], 10) == [n % 10] by {
      assert [c][1..] == [];
    }
    if n >= 10 {
      NatToStringDigits(n / 10);
      var a := NatToString(n / 10);
      assert forall k :: 0 <= k < |a| ==> DigitValue(a[k]) < 10;
      LeadingDigitsAppend(a, [c], 10);
    }
  }

  lemma ParseUnsignedDecimal(n: nat)
    ensures ParseUnsigned(NatToString(n)) == Some(n)
  {
    NatToStringDigits(n);
    DecimalDigitsValue(n);
    var d := NatToString(n);
    assert |d| >= 2 ==> '0' <= d[1] <= '9';
  }

  /** Parsing the decimal digits of `n`, after an optional sign character, gives `n`. */
  lemma ParseDecimal(n: nat, sign: string)
    requires sign == "" || sign == "-" || sign == "+"
    ensures ParseInt(sign + NatToString(n)) == Some(if sign == "-" then -(n as int) else n as int)
  {
    var d := NatToString(n);
    ParseUnsignedDecimal(n);
    NatToStringDigits(n);
    var s := sign + d;
    assert s[0] == (if sign == "" then d[0] else sign[0]);
    assert TrimStart(s) == s;
    if sign == "" {
      assert s == d;
    } else {
      assert s[1..] == d;
    }
  }

  /** `parseInt` gives `NaN` when, after the leading white space and an optional sign, the
      text does not start with a decimal digit. */
  lemma ParseIntRejects(s: string)
    requires var t := TrimStart(s);
      var u := if t != [] && (t[0] == '-' || t[0] == '+') then t[1..] else t;
      u == [] || DigitValue(u[0]) >= 10
    ensures ParseInt(s) == None
  {
  }

  /** `parseInt(String(i)) === i`: rendering an integer and parsing it back is the identity. */
  lemma ParseIntOfIntToString(i: int)
    ensures ParseInt(IntToString(i)) == Some(i)
  {
    if i < 0 {
      ParseDecimal(-i, "-");
    } else {
      ParseDecimal(i, "");
      assert "" + NatToString(i) == NatToString(i);
    }
  }

  /** A string that starts and ends with a non-blank character is left alone by `trim`. */
  lemma TrimNoop(s: string)
    requires s != [] ==> !IsSpace(s[0]) && !IsSpace(s[|s| - 1])
    ensures Trim(s) == s
  {}

  lemma TrimIntToString(i: int)
    ensures Trim(IntToString(i)) == IntToString(i)
  {
    var n: nat := if i < 0 then -i else i;
    NatToStringDigits(n);
    var s := IntToString(i);
    assert s[|s| - 1] == NatToString(n)[|NatToString(n)| - 1];
    TrimNoop(s);
  }

  /** A leading space does not survive `trim`. */
  lemma TrimAfterSpace(x: string)
    ensures Trim([' '] + x) == Trim(x)
  {
    assert ([' '] + x)[1..] == x;
  }
}
