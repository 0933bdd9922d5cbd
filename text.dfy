/**
 * ASCII string helpers shared by the bot, the card and the gift lookup:
 * the parts of Python's `str` methods (`lower`, `upper`, `strip`, `split`,
 * `endswith`, `in`, `title`) and decimal rendering of integers, restricted to
 * ASCII text.
 */
module Text {

  predicate IsUpperCase(c: char) { 'A' <= c <= 'Z' }

  predicate IsLowerCase(c: char) { 'a' <= c <= 'z' }

  /** The cased characters of ASCII. */
  predicate IsLetter(c: char) { IsUpperCase(c) || IsLowerCase(c) }

  predicate IsDigit(c: char) { '0' <= c <= '9' }

  /** Python's `str.isspace` on ASCII: tab through carriage return, the four
      separator controls 0x1C..0x1F, and the space itself. */
  predicate IsSpace(c: char) {
    (9 <= c as int <= 13) || (28 <= c as int <= 32)
  }

  function LowerChar(c: char): (r: char)
    ensures !IsUpperCase(r)
    ensures IsLetter(c) <==> IsLetter(r)
    ensures !IsLetter(c) ==> r == c
  {
    if IsUpperCase(c) then (c as int + 32) as char else c
  }

  function UpperChar(c: char): (r: char)
    ensures !IsLowerCase(r)
    ensures IsLetter(c) <==> IsLetter(r)
    ensures !IsLetter(c) ==> r == c
  {
    if IsLowerCase(c) then (c as int - 32) as char else c
  }

  /** `s.lower()` */
  function Lower(s: string): (r: string)
    ensures |r| == |s|
    ensures forall i :: 0 <= i < |s| ==> r[i] == LowerChar(s[i])
  {
    seq(|s|, i requires 0 <= i < |s| => LowerChar(s[i]))
  }

  lemma LowerIdempotent(s: string)
    ensures Lower(Lower(s)) == Lower(s)
  {
  }

  /** `s.lstrip()`: drops the leading whitespace. */
  function StripLeft(s: string): (r: string)
    ensures |r| <= |s|
    ensures r == [] || !IsSpace(r[0])
    ensures forall i :: 0 <= i < |s| - |r| ==> IsSpace(s[i])
  {
    if s != [] && IsSpace(s[0]) then StripLeft(s[1..]) else s
  }

  /** What `lstrip` leaves is a suffix of its input. */
  lemma {:induction false} StripLeftSuffix(s: string)
    ensures StripLeft(s) == s[|s| - |StripLeft(s)|..]
  {
    if s != [] && IsSpace(s[0]) {
      StripLeftSuffix(s[1..]);
    }
  }

  /** `s.rstrip()`: drops the trailing whitespace. */
  function StripRight(s: string): (r: string)
    ensures |r| <= |s| && r == s[..|r|]
    ensures r == [] || !IsSpace(r[|r| - 1])
    ensures forall i :: |r| <= i < |s| ==> IsSpace(s[i])
  {
    if s != [] && IsSpace(s[|s| - 1]) then StripRight(s[..|s| - 1]) else s
  }

  /** `s.strip()` */
  function Strip(s: string): (r: string)
  {
    StripRight(StripLeft(s))
  }

  /** `s.endswith(suffix)` */
  predicate EndsWith(s: string, suffix: string) {
    |suffix| <= |s| && s[|s| - |suffix|..] == suffix
  }

  /** Python's `w in s` for strings: `w` occurs in `s` as a contiguous run. */
  predicate Contains(s: string, w: string) {
    exists i :: 0 <= i <= |s| - |w| && OccursAt(s, w, i)
  }

  /** `w` occurs in `s` starting at index `i`. */
  predicate OccursAt(s: string, w: string, i: int) {
    0 <= i <= |s| - |w| && s[i..i + |w|] == w
  }

  /** The longest prefix of `s` without whitespace. */
  function TakeWord(s: string): (w: string)
    ensures |w| <= |s| && w == s[..|w|]
    ensures forall i :: 0 <= i < |w| ==> !IsSpace(w[i])
    ensures |w| == |s| || IsSpace(s[|w|])
  {
    if s == [] || IsSpace(s[0]) then [] else [s[0]] + TakeWord(s[1..])
  }

  predicate NoSpace(w: string) {
    forall i :: 0 <= i < |w| ==> !IsSpace(w[i])
  }

  /** `s.split()` with no separator: the maximal runs of non-whitespace. */
  function Words(s: string): (ws: seq<string>)
    ensures forall k :: 0 <= k < |ws| ==> ws[k] != [] && NoSpace(ws[k])
    decreases |s|
  {
    var t := StripLeft(s);
    if t == [] then []
    else
      var w := TakeWord(t);
      assert |w| >= 1;
      var rest := Words(t[|w|..]);
      assert forall k :: 0 <= k < |rest| ==> rest[k] != [] && NoSpace(rest[k]);
      [w] + rest
  }

  lemma {:induction false} StripLeftAfterSpaces(sp: string, s: string)
    requires forall i :: 0 <= i < |sp| ==> IsSpace(sp[i])
    ensures StripLeft(sp + s) == StripLeft(s)
  {
    if sp != [] {
      assert (sp + s)[1..] == sp[1..] + s;
      StripLeftAfterSpaces(sp[1..], s);
    } else {
      assert sp + s == s;
    }
  }

  lemma {:induction false} TakeWordOfWord(w: string, s: string)
    requires NoSpace(w) && (s == [] || IsSpace(s[0]))
    ensures TakeWord(w + s) == w
  {
    if w == [] {
      assert w + s == s;
    } else {
      assert (w + s)[1..] == w[1..] + s;
      TakeWordOfWord(w[1..], s);
      assert w == [w[0]] + w[1..];
    }
  }

  /** `split()` is pinned down by three rules: text with no non-whitespace
      has no words, leading whitespace is ignored, and a run of
      non-whitespace up to a whitespace character or the end is the next
      word. Every text is split by applying them from the left. */
  lemma WordsSpec(sp: string, w: string, s: string)
    requires forall i :: 0 <= i < |sp| ==> IsSpace(sp[i])
    ensures Words(sp) == []
    ensures Words(sp + s) == Words(s)
    ensures w != [] && NoSpace(w) && (s == [] || IsSpace(s[0])) ==> Words(w + s) == [w] + Words(s)
  {
    BlankHasNoWords(sp);
    StripLeftAfterSpaces(sp, s);
    if w != [] && NoSpace(w) && (s == [] || IsSpace(s[0])) {
      TakeWordOfWord(w, s);
      assert (w + s)[|w|..] == s;
    }
  }

  /** Text splits into no words exactly when it has no non-whitespace
      character. */
  lemma WordsEmpty(s: string)
    ensures Words(s) == [] <==> forall i :: 0 <= i < |s| ==> IsSpace(s[i])
  {
    var t := StripLeft(s);
    if t != [] {
      StripLeftSuffix(s);
      assert !IsSpace(s[|s| - |t|]);
    }
  }

  /** A string that is empty or all whitespace splits into no words. */
  lemma BlankHasNoWords(s: string)
    requires forall i :: 0 <= i < |s| ==> IsSpace(s[i])
    ensures Words(s) == []
  {
    assert StripLeft(s) == [];
  }

  /** Python's `any(word in s for word in words)`. */
  predicate AnyWordIn(words: seq<string>, s: string) {
    exists k :: 0 <= k < |words| && Contains(s, words[k])
  }

  /** How `str.title` treats one character, given whether the character
      before it is a letter. */
  function TitleChar(c: char, afterLetter: bool): char {
    if !IsLetter(c) then c
    else if afterLetter then LowerChar(c)
    else UpperChar(c)
  }

  function TitleFrom(s: string, afterLetter: bool): (r: string)
    ensures |r| == |s|
  {
    if s == [] then []
    else [TitleChar(s[0], afterLetter)] + TitleFrom(s[1..], IsLetter(s[0]))
  }

  /** `s.title()` on ASCII text. */
  function Title(s: string): string {
    TitleFrom(s, false)
  }

  lemma {:induction false} TitleFromAt(s: string, afterLetter: bool, i: nat)
    requires i < |s|
    ensures TitleFrom(s, afterLetter)[i] == TitleChar(s[i], if i == 0 then afterLetter else IsLetter(s[i - 1]))
    decreases i
  {
    if i > 0 {
      TitleFromAt(s[1..], IsLetter(s[0]), i - 1);
    }
  }

  /** `str.title` upper-cases a letter that starts the string or follows a
      non-letter, lower-cases every other letter, and keeps everything else. */
  lemma TitleSpec(s: string)
    ensures |Title(s)| == |s|
    ensures forall i :: 0 <= i < |s| ==> Title(s)[i] == TitleChar(s[i], i > 0 && IsLetter(s[i - 1]))
  {
    forall i | 0 <= i < |s|
      ensures Title(s)[i] == TitleChar(s[i], i > 0 && IsLetter(s[i - 1]))
    {
      TitleFromAt(s, false, i);
    }
  }

  /** `str.title` looks at letters only through their lower-case form, so
      the letter case of its input makes no difference. */
  lemma TitleIgnoresCase(s: string)
    ensures Title(Lower(s)) == Title(s)
  {
    TitleSpec(s);
    TitleSpec(Lower(s));
    forall i | 0 <= i < |s|
      ensures Title(Lower(s))[i] == Title(s)[i]
    {
      TitleCharOfLower(s[i], i > 0 && IsLetter(s[i - 1]));
    }
  }

  lemma TitleCharOfLower(c: char, afterLetter: bool)
    ensures TitleChar(LowerChar(c), afterLetter) == TitleChar(c, afterLetter)
  {
  }

  /** Title-casing a title-cased string changes nothing. */
  lemma TitleIdempotent(s: string)
    ensures Title(Title(s)) == Title(s)
  {
    TitleSpec(s);
    TitleSpec(Title(s));
    forall i | 0 <= i < |s|
      ensures Title(Title(s))[i] == Title(s)[i]
    {
      if i > 0 {
        TitleCharKeepsLetter(s[i - 1], i > 1 && IsLetter(s[i - 2]));
      }
      TitleCharTwice(s[i], i > 0 && IsLetter(s[i - 1]));
    }
  }

  lemma TitleCharKeepsLetter(c: char, afterLetter: bool)
    ensures IsLetter(TitleChar(c, afterLetter)) <==> IsLetter(c)
  {
  }

  lemma TitleCharTwice(c: char, afterLetter: bool)
    ensures TitleChar(TitleChar(c, afterLetter), afterLetter) == TitleChar(c, afterLetter)
  {
  }

  function DigitChar(d: nat): (c: char)
    requires d < 10
    ensures IsDigit(c)
  {
    ('0' as int + d) as char
  }

  function DigitValue(c: char): (d: nat)
    requires IsDigit(c)
    ensures d < 10
  {
    c as int - '0' as int
  }

  predicate AllDigits(s: string) {
    forall i :: 0 <= i < |s| ==> IsDigit(s[i])
  }

  /** Python's `str(n)` for a natural number. */
  function Decimal(n: nat): (r: string)
    ensures |r| >= 1 && AllDigits(r)
    ensures r[0] == '0' ==> n == 0
  {
    if n < 10 then [DigitChar(n)] else Decimal(n / 10) + [DigitChar(n % 10)]
  }

  /** The number a string of decimal digits denotes. */
  function DigitsValue(s: string): nat
    requires AllDigits(s)
  {
    if s == [] then 0 else DigitsValue(s[..|s| - 1]) * 10 + DigitValue(s[|s| - 1])
  }

  /** Reading the decimal form back gives the number. */
  lemma {:induction false} DecimalRoundTrip(n: nat)
    ensures DigitsValue(Decimal(n)) == n
  {
    if n >= 10 {
      DecimalRoundTrip(n / 10);
      var d := Decimal(n);
      assert d[..|d| - 1] == Decimal(n / 10);
    }
  }
}
