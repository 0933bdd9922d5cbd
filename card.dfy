/**
 * The computations of `src/generators/card_generator.py`: hex colour
 * decoding, the backdrop palette, digit grouping, the card prices, the
 * percent badge, the display name, the choice of gift picture and the card
 * layout. Gradients, fonts and pasting are not modelled; the random palette
 * pick and the measured text sizes are arguments.
 */
module Card {
  import opened Wrappers
  import opened Text
  import opened GiftImages

  datatype Rgb = Rgb(red: int, green: int, blue: int)

  const POSITIVE_CHANGE_COLOR: Rgb := Rgb(46, 204, 113)
  const NEGATIVE_CHANGE_COLOR: Rgb := Rgb(231, 76, 60)
  const BLACK: Rgb := Rgb(0, 0, 0)

  predicate IsByte(n: int) { 0 <= n < 256 }

  predicate ValidRgb(c: Rgb) { IsByte(c.red) && IsByte(c.green) && IsByte(c.blue) }

  // ----- Hex colours -----

  predicate IsHexDigit(c: char) {
    IsDigit(c) || 'a' <= c <= 'f' || 'A' <= c <= 'F'
  }

  predicate AllHex(s: string) {
    forall i :: 0 <= i < |s| ==> IsHexDigit(s[i])
  }

  function HexDigitValue(c: char): (d: nat)
    requires IsHexDigit(c)
    ensures d < 16
  {
    if IsDigit(c) then c as int - '0' as int
    else if 'a' <= c <= 'f' then c as int - 'a' as int + 10
    else c as int - 'A' as int + 10
  }

  /** The number a string of hex digits denotes. */
  function HexValue(s: string): (n: nat)
    requires AllHex(s)
  {
    if s == [] then 0 else HexValue(s[..|s| - 1]) * 16 + HexDigitValue(s[|s| - 1])
  }

  function Pow16(k: nat): (p: nat)
    ensures p >= 1
  {
    if k == 0 then 1 else 16 * Pow16(k - 1)
  }

  lemma {:induction false} HexValueBound(s: string)
    requires AllHex(s)
    ensures HexValue(s) < Pow16(|s|)
    ensures |s| <= 2 ==> HexValue(s) < 256
  {
    if s != [] {
      HexValueBound(s[..|s| - 1]);
    }
  }

  /** Python's `int(s, 16)` on the strings it meets here: surrounding
      whitespace, an optional sign, then at least one hex digit; anything else
      is a ValueError, modelled as None. */
  function ParseInt16(s: string): (r: Option<int>)
    ensures |s| <= 2 && r.Some? ==> -16 < r.value < 256
  {
    var t := Strip(s);
    if t == [] then None
    else
      var digits := if t[0] == '+' || t[0] == '-' then t[1..] else t;
      if digits == [] || !AllHex(digits) then None
      else
        var v: int := HexValue(digits);
        HexValueBound(digits);
        Some(if t[0] == '-' then -v else v)
  }

  /** `s.lstrip('#')` */
  function StripHashes(s: string): (r: string)
    ensures |r| <= |s|
    ensures r == [] || r[0] != '#'
  {
    if s != [] && s[0] == '#' then StripHashes(s[1..]) else s
  }

  /** What `lstrip('#')` removes is a run of `#` and nothing else. */
  lemma {:induction false} StripHashesSpec(s: string)
    ensures s == Hashes(|s| - |StripHashes(s)|) + StripHashes(s)
  {
    if s != [] && s[0] == '#' {
      StripHashesSpec(s[1..]);
      var k := |s| - |StripHashes(s)|;
      assert Hashes(k) == ['#'] + Hashes(k - 1);
      assert s == [s[0]] + s[1..];
    } else {
      assert Hashes(0) + s == s;
    }
  }

  /** Python's slice `s[i:i+2]`, which is shorter or empty past the end. */
  function Pair(s: string, i: nat): (r: string)
    ensures |r| <= 2
  {
    if i >= |s| then [] else if i + 2 >= |s| then s[i..] else s[i..i + 2]
  }

  /** Lines 75-77: drop the leading `#` characters and read the pairs at 0,
      2 and 4 in base 16; None stands for the ValueError of a bad pair. */
  function HexToRgb(s: string): (r: Option<Rgb>)
    ensures r.Some? ==> -16 < r.value.red < 256 && -16 < r.value.green < 256 && -16 < r.value.blue < 256
  {
    var h := StripHashes(s);
    match (ParseInt16(Pair(h, 0)), ParseInt16(Pair(h, 2)), ParseInt16(Pair(h, 4)))
    case (Some(r), Some(g), Some(b)) => Some(Rgb(r, g, b))
    case _ => None
  }

  /** The lower-case two-digit hex form of a byte, as `#rrggbb` colours are
      written. */
  function HexDigit(d: nat): (c: char)
    requires d < 16
    ensures IsHexDigit(c) && HexDigitValue(c) == d
  {
    if d < 10 then ('0' as int + d) as char else ('a' as int + d - 10) as char
  }

  function HexByte(n: int): (s: string)
    requires IsByte(n)
    ensures |s| == 2 && AllHex(s)
  {
    [HexDigit(n / 16), HexDigit(n % 16)]
  }

  function RgbHex(c: Rgb): (s: string)
    requires ValidRgb(c)
    ensures |s| == 6
  {
    HexByte(c.red) + HexByte(c.green) + HexByte(c.blue)
  }

  function Hashes(k: nat): (s: string)
    ensures |s| == k && forall i :: 0 <= i < k ==> s[i] == '#'
  {
    if k == 0 then [] else "#" + Hashes(k - 1)
  }

  /** A pair of hex digits reads as the first digit times 16 plus the
      second. */
  lemma ParseHexPair(p: string)
    requires |p| == 2 && AllHex(p)
    ensures ParseInt16(p) == Some(HexDigitValue(p[0]) * 16 + HexDigitValue(p[1]))
  {
    assert !IsSpace(p[0]) && !IsSpace(p[1]);
    assert StripLeft(p) == p;
    assert StripRight(p) == p;
    assert p[..1] == [p[0]];
    assert p[..1][..0] == [];
    assert HexValue(p[..1]) == HexDigitValue(p[0]);
    assert HexValue(p) == HexValue(p[..1]) * 16 + HexDigitValue(p[1]);
  }

  lemma DivMod16(a: nat, b: nat)
    requires a < 16 && b < 16
    ensures (a * 16 + b) / 16 == a && (a * 16 + b) % 16 == b
  {
  }

  lemma HexByteValue(n: int)
    requires IsByte(n)
    ensures ParseInt16(HexByte(n)) == Some(n)
  {
    ParseHexPair(HexByte(n));
  }

  /** One more leading `#` makes no difference once they are stripped. */
  lemma StripOneMoreHash(k: nat, s: string)
    requires k > 0
    ensures StripHashes(Hashes(k) + s) == StripHashes(Hashes(k - 1) + s)
  {
    assert Hashes(k) + s == ['#'] + (Hashes(k - 1) + s);
    assert (['#'] + (Hashes(k - 1) + s))[1..] == Hashes(k - 1) + s;
  }

  lemma {:induction false} StripHashesPrefix(k: nat, s: string)
    requires s == [] || s[0] != '#'
    ensures StripHashes(Hashes(k) + s) == s
  {
    if k > 0 {
      StripOneMoreHash(k, s);
      StripHashesPrefix(k - 1, s);
    } else {
      assert Hashes(k) + s == s;
    }
  }

  /** Decoding the hex form of a colour, after any number of `#`, gives the
      colour back. */
  lemma HexRoundTrip(c: Rgb, k: nat)
    requires ValidRgb(c)
    ensures HexToRgb(Hashes(k) + RgbHex(c)) == Some(c)
  {
    var h := RgbHex(c);
    assert h[0] == HexByte(c.red)[0];
    StripHashesPrefix(k, h);
    assert Pair(h, 0) == HexByte(c.red);
    assert Pair(h, 2) == HexByte(c.green);
    assert Pair(h, 4) == HexByte(c.blue);
    HexByteValue(c.red);
    HexByteValue(c.green);
    HexByteValue(c.blue);
  }

  predicate IsLowerHexDigit(c: char) { IsDigit(c) || 'a' <= c <= 'f' }

  /** A palette colour as written in the source: `#` and six lower-case hex
      digits. */
  predicate WellFormedColor(s: string) {
    && |s| == 7 && s[0] == '#'
    && IsLowerHexDigit(s[1]) && IsLowerHexDigit(s[2]) && IsLowerHexDigit(s[3])
    && IsLowerHexDigit(s[4]) && IsLowerHexDigit(s[5]) && IsLowerHexDigit(s[6])
  }

  lemma LowerDigitRoundTrip(c: char)
    requires IsLowerHexDigit(c)
    ensures HexDigit(HexDigitValue(c)) == c
  {
  }

  /** Two lower-case hex digits are the hex form of the byte `v` they
      denote. */
  lemma HexByteOfDigits(p: string, v: int)
    requires |p| == 2 && IsLowerHexDigit(p[0]) && IsLowerHexDigit(p[1])
    requires v == HexDigitValue(p[0]) * 16 + HexDigitValue(p[1])
    ensures IsByte(v) && HexByte(v) == p
  {
    var a, b := HexDigitValue(p[0]), HexDigitValue(p[1]);
    DivMod16(a, b);
    LowerDigitRoundTrip(p[0]);
    LowerDigitRoundTrip(p[1]);
    assert HexByte(v) == [p[0], p[1]];
  }

  lemma LowerPairRoundTrip(p: string)
    requires |p| == 2 && IsLowerHexDigit(p[0]) && IsLowerHexDigit(p[1])
    ensures ParseInt16(p).Some? && IsByte(ParseInt16(p).value)
    ensures HexByte(ParseInt16(p).value) == p
  {
    ParseHexPair(p);
    HexByteOfDigits(p, ParseInt16(p).value);
  }

  lemma {:induction false} StripHashesOfColor(s: string)
    requires WellFormedColor(s)
    ensures StripHashes(s) == s[1..]
  {
    var h := s[1..];
    assert h[0] == s[1] && h[0] != '#';
    assert StripHashes(h) == h;
  }

  /** The pairs read from the colour with its `#` stripped are the three
      slices after the `#`. */
  lemma PairsOfColor(s: string)
    requires |s| == 7
    ensures Pair(s[1..], 0) == s[1..3] && Pair(s[1..], 2) == s[3..5] && Pair(s[1..], 4) == s[5..7]
  {
  }

  lemma ColorPair(s: string, i: nat, p: string)
    requires WellFormedColor(s) && (i == 1 || i == 3 || i == 5) && p == s[i..i + 2]
    ensures |p| == 2 && IsLowerHexDigit(p[0]) && IsLowerHexDigit(p[1])
  {
    assert p[0] == s[i] && p[1] == s[i + 1];
  }

  lemma DecodeOfPairs(s: string, p0: string, p1: string, p2: string)
    requires |s| == 7 && StripHashes(s) == s[1..]
    requires p0 == s[1..3] && p1 == s[3..5] && p2 == s[5..7]
    requires ParseInt16(p0).Some? && ParseInt16(p1).Some? && ParseInt16(p2).Some?
    ensures HexToRgb(s) == Some(Rgb(ParseInt16(p0).value, ParseInt16(p1).value, ParseInt16(p2).value))
  {
    PairsOfColor(s);
  }

  lemma EncodeOfPairs(h: string, p0: string, p1: string, p2: string, c: Rgb)
    requires ValidRgb(c) && h == p0 + p1 + p2
    requires HexByte(c.red) == p0 && HexByte(c.green) == p1 && HexByte(c.blue) == p2
    ensures RgbHex(c) == h
  {
  }

  /** A well-formed palette colour decodes to bytes whose hex form is the
      colour's own text: decoding loses nothing. */
  lemma WellFormedDecodes(s: string)
    requires WellFormedColor(s)
    ensures HexToRgb(s).Some? && ValidRgb(HexToRgb(s).value)
    ensures RgbHex(HexToRgb(s).value) == s[1..]
  {
    StripHashesOfColor(s);
    var p0, p1, p2 := s[1..3], s[3..5], s[5..7];
    // Stated before any pair is parsed, so the later calls find them at hand.
    assert p0 == s[1..1 + 2] && p1 == s[3..3 + 2] && p2 == s[5..5 + 2];
    assert s[1..] == p0 + p1 + p2;
    ColorPair(s, 1, p0);
    ColorPair(s, 3, p1);
    ColorPair(s, 5, p2);
    LowerPairRoundTrip(p0);
    LowerPairRoundTrip(p1);
    LowerPairRoundTrip(p2);
    DecodeOfPairs(s, p0, p1, p2);
    EncodeOfPairs(s[1..], p0, p1, p2, HexToRgb(s).value);
  }

  // ----- Backdrop palette -----

  datatype Backdrop = Backdrop(name: string, hex: Option<(string, string)>)

  /** Lines 48-60: each entry's `hex` holds (centerColor, edgeColor). */
  const BACKDROP_COLORS: seq<Backdrop> := [
    Backdrop("Black", Some(("#363738", "#0e0f0f"))),
    Backdrop("Electric Purple", Some(("#ca70c6", "#9662d4"))),
    Backdrop("Lavender", Some(("#b789e4", "#8a5abc"))),
    Backdrop("Cyberpunk", Some(("#858ff3", "#865fd3"))),
    Backdrop("Electric Indigo", Some(("#a980f3", "#5b62d8"))),
    Backdrop("Neon Blue", Some(("#7596f9", "#6862e4"))),
    Backdrop("Navy Blue", Some(("#6c9edd", "#5c6ec9"))),
    Backdrop("Sapphire", Some(("#58a3c8", "#5379c2"))),
    Backdrop("Sky Blue", Some(("#58b4c8", "#538bc2"))),
    Backdrop("Azure Blue", Some(("#5db1cb", "#448bab"))),
    Backdrop("Mint", Some(("#5dc8b1", "#4abf9c")))
  ]

  /** `[c for c in BACKDROP_COLORS if "hex" in c]` */
  function WithHex(colors: seq<Backdrop>): (r: seq<Backdrop>)
    ensures |r| <= |colors|
    ensures forall i :: 0 <= i < |r| ==> r[i].hex.Some? && r[i] in colors
  {
    if colors == [] then []
    else (if colors[0].hex.Some? then [colors[0]] else []) + WithHex(colors[1..])
  }

  lemma {:induction false} WithHexKeepsAll(colors: seq<Backdrop>)
    requires forall i :: 0 <= i < |colors| ==> colors[i].hex.Some?
    ensures WithHex(colors) == colors
  {
    if colors != [] {
      WithHexKeepsAll(colors[1..]);
    }
  }

  predicate WellFormedBackdrop(b: Backdrop) {
    b.hex.Some? && WellFormedColor(b.hex.value.0) && WellFormedColor(b.hex.value.1)
  }

  /** Every palette entry has its `hex` pair, written as well-formed colours,
      so the filter keeps all eleven entries. */
  lemma PaletteWellFormed()
    ensures forall i :: 0 <= i < |BACKDROP_COLORS| ==> WellFormedBackdrop(BACKDROP_COLORS[i])
    ensures WithHex(BACKDROP_COLORS) == BACKDROP_COLORS
  {
    PaletteColorsWellFormed();
    WithHexKeepsAll(BACKDROP_COLORS);
  }

  lemma PaletteColorsWellFormed()
    ensures forall i :: 0 <= i < |BACKDROP_COLORS| ==> WellFormedBackdrop(BACKDROP_COLORS[i])
  {
  }

  /** Lines 79-83: the decoded (center, edge) colours of the entry the random
      pick `choice` selects among those with a `hex` pair. */
  function RandomBackdropPair(choice: nat): (r: (Rgb, Rgb))
    requires choice < |BACKDROP_COLORS|
    ensures ValidRgb(r.0) && ValidRgb(r.1)
    ensures RgbHex(r.0) == BACKDROP_COLORS[choice].hex.value.0[1..]
    ensures RgbHex(r.1) == BACKDROP_COLORS[choice].hex.value.1[1..]
  {
    PaletteEntry(choice);
    var b := WithHex(BACKDROP_COLORS)[choice];
    var center, edge := b.hex.value.0, b.hex.value.1;
    WellFormedDecodes(center);
    WellFormedDecodes(edge);
    (HexToRgb(center).value, HexToRgb(edge).value)
  }

  lemma PaletteEntry(choice: nat)
    requires choice < |BACKDROP_COLORS|
    ensures choice < |WithHex(BACKDROP_COLORS)| && WithHex(BACKDROP_COLORS)[choice] == BACKDROP_COLORS[choice]
    ensures WellFormedBackdrop(BACKDROP_COLORS[choice])
  {
    PaletteWellFormed();
  }

  // ----- Digit grouping -----

  /** Digits grouped in threes from the right, separated by single spaces. */
  function Group(d: string): (r: string)
    requires |d| >= 1 && AllDigits(d)
    ensures |r| == |d| + (|d| - 1) / 3
  {
    if |d| <= 3 then d else Group(d[..|d| - 3]) + " " + d[|d| - 3..]
  }

  /** `s.replace(" ", "")` */
  function RemoveSpaces(s: string): (r: string)
    ensures |r| <= |s|
  {
    if s == [] then [] else (if s[0] == ' ' then [] else [s[0]]) + RemoveSpaces(s[1..])
  }

  lemma {:induction false} RemoveSpacesAppend(a: string, b: string)
    ensures RemoveSpaces(a + b) == RemoveSpaces(a) + RemoveSpaces(b)
  {
    if a != [] {
      assert a + b == [a[0]] + (a[1..] + b);
      assert (a + b)[1..] == a[1..] + b;
      RemoveSpacesAppend(a[1..], b);
    } else {
      assert a + b == b;
    }
  }

  lemma {:induction false} RemoveSpacesOfDigits(d: string)
    requires AllDigits(d)
    ensures RemoveSpaces(d) == d
  {
    if d != [] {
      RemoveSpacesOfDigits(d[1..]);
    }
  }

  /** Where a character of a grouping sits, counted from the end: spaces
      exactly at multiples of four, digits elsewhere. */
  predicate SpacedEveryFour(r: string) {
    forall i :: 0 <= i < |r| ==> (r[i] == ' ' <==> (|r| - i) % 4 == 0) && (r[i] != ' ' ==> IsDigit(r[i]))
  }

  lemma SpacedAppend(g: string, tail: string)
    requires SpacedEveryFour(g) && |tail| == 3 && AllDigits(tail)
    ensures SpacedEveryFour(g + " " + tail)
  {
    var r := g + " " + tail;
    forall i | 0 <= i < |r|
      ensures (r[i] == ' ' <==> (|r| - i) % 4 == 0) && (r[i] != ' ' ==> IsDigit(r[i]))
    {
      if i < |g| {
        assert r[i] == g[i];
        assert (|r| - i) % 4 == (|g| - i) % 4;
      } else if i > |g| {
        assert r[i] == tail[i - |g| - 1];
        assert 1 <= |r| - i <= 3;
      }
    }
  }

  /** A character of the grouped text is a space exactly when a multiple of
      four characters follows it up to the end, and a digit otherwise; the
      text never starts with a space. */
  lemma {:induction false} GroupShape(d: string)
    requires |d| >= 1 && AllDigits(d)
    ensures SpacedEveryFour(Group(d))
    ensures Group(d)[0] != ' '
  {
    if |d| > 3 {
      var front := d[..|d| - 3];
      var tail := d[|d| - 3..];
      GroupShape(front);
      assert Group(d) == Group(front) + " " + tail;
      SpacedAppend(Group(front), tail);
    }
  }

  lemma RemoveSpacesJoin(g: string, tail: string)
    requires AllDigits(tail)
    ensures RemoveSpaces(g + " " + tail) == RemoveSpaces(g) + tail
  {
    RemoveSpacesAppend(g + " ", tail);
    RemoveSpacesAppend(g, " ");
    RemoveSpacesOfDigits(tail);
  }

  /** Taking the spaces out of the grouped text gives the digits back. */
  lemma {:induction false} GroupRemoveSpaces(d: string)
    requires |d| >= 1 && AllDigits(d)
    ensures RemoveSpaces(Group(d)) == d
  {
    if |d| <= 3 {
      RemoveSpacesOfDigits(d);
    } else {
      var front, tail := d[..|d| - 3], d[|d| - 3..];
      GroupRemoveSpaces(front);
      RemoveSpacesJoin(Group(front), tail);
      assert d == front + tail;
    }
  }

  /** Line 62-63: `f"{n:,}"` with the commas turned into spaces. */
  function FormatNumber(n: int): string {
    (if n < 0 then "-" else "") + Group(Decimal(if n < 0 then -n else n))
  }

  /** Taking the spaces out of the formatted number gives `str(n)`. */
  lemma FormatNumberSpec(n: int)
    ensures RemoveSpaces(FormatNumber(n)) == (if n < 0 then "-" else "") + Decimal(if n < 0 then -n else n)
    ensures FormatNumber(n)[0] == '-' <==> n < 0
  {
    var m := if n < 0 then -n else n;
    GroupShape(Decimal(m));
    GroupRemoveSpaces(Decimal(m));
    RemoveSpacesAppend(if n < 0 then "-" else "", Group(Decimal(m)));
  }

  // ----- Rounding and prices -----

  function Abs(x: real): real { if x < 0.0 then -x else x }

  /** `round(x, 2)` on an exact value: to the nearest hundredth, halves
      away from zero. */
  function Round2(x: real): (r: real)
    ensures x - 0.005 <= r <= x + 0.005
    ensures x >= 0.005 ==> r >= 0.01
    ensures x <= -0.005 ==> r <= -0.01
    ensures -0.005 < x < 0.005 ==> r == 0.0
  {
    if x >= 0.0 then ((x * 100.0 + 0.5).Floor as real) / 100.0
    else -(((-x) * 100.0 + 0.5).Floor as real) / 100.0
  }

  const TON_PER_STAR: real := 0.0053
  const USD_PER_TON: real := 2.9

  /** Lines 143 and 147: the TON price and the dollar price on the card. */
  function CardPrices(priceStars: int): (r: (real, real))
    ensures Abs(r.0 - priceStars as real * TON_PER_STAR) <= 0.005
    ensures Abs(r.1 - r.0 * USD_PER_TON) <= 0.005
  {
    var ton := Round2(priceStars as real * TON_PER_STAR);
    (ton, Round2(ton * USD_PER_TON))
  }

  // ----- Percent badge -----

  /** The badge text: "0", or the rounded value with its sign and two
      decimals followed by `%`. */
  datatype BadgeText = ZeroText | Signed(value: real)

  /** Lines 164-169. */
  function PercentBadge(percentChange: real): (b: (BadgeText, Rgb))
    ensures Abs(percentChange) < 0.005 <==> b == (ZeroText, BLACK)
    ensures b.1 == POSITIVE_CHANGE_COLOR <==> percentChange >= 0.005
    ensures b.1 == NEGATIVE_CHANGE_COLOR <==> percentChange <= -0.005
    ensures b.0.Signed? ==> Abs(b.0.value - percentChange) <= 0.005 && b.0.value != 0.0
  {
    if Abs(percentChange) >= 0.005 then
      var v := Round2(percentChange);
      (Signed(v), if v > 0.0 then POSITIVE_CHANGE_COLOR else NEGATIVE_CHANGE_COLOR)
    else (ZeroText, BLACK)
  }

  // ----- Display name -----

  /** `s.replace("-", " - ")` */
  function SpaceHyphens(s: string): (r: string)
    ensures r == [] || r[0] != '-'
  {
    if s == [] then []
    else (if s[0] == '-' then " - " else [s[0]]) + SpaceHyphens(s[1..])
  }

  /** `s.replace(" - ", "-")`, scanning left to right. */
  function CollapseHyphens(s: string): string {
    if |s| >= 3 && s[..3] == " - " then "-" + CollapseHyphens(s[3..])
    else if s == [] then []
    else [s[0]] + CollapseHyphens(s[1..])
  }

  /** Line 136. */
  function DisplayName(name: string): string {
    CollapseHyphens(Title(SpaceHyphens(name)))
  }

  lemma TitleOfCons(c: char, rest: string, afterLetter: bool)
    ensures TitleFrom([c] + rest, afterLetter) == [TitleChar(c, afterLetter)] + TitleFrom(rest, IsLetter(c))
  {
    assert ([c] + rest)[1..] == rest;
  }

  lemma SpaceHyphensOfCons(c: char, rest: string)
    ensures SpaceHyphens([c] + rest) == (if c == '-' then " - " else [c]) + SpaceHyphens(rest)
  {
    assert ([c] + rest)[1..] == rest;
  }

  /** Title-casing a spaced hyphen: the three characters stay, and the text
      after them starts a new word. */
  lemma TitleOfSpacedHyphen(rest: string, afterLetter: bool)
    ensures TitleFrom(" - " + rest, afterLetter) == " - " + TitleFrom(rest, false)
  {
    TitleOfCons(' ', "- " + rest, afterLetter);
    TitleOfCons('-', " " + rest, false);
    TitleOfCons(' ', rest, false);
    assert " - " + rest == [' '] + ("- " + rest);
    assert "- " + rest == ['-'] + (" " + rest);
    assert " " + rest == [' '] + rest;
  }

  lemma {:induction false} TitleCommutes(s: string, afterLetter: bool)
    ensures TitleFrom(SpaceHyphens(s), afterLetter) == SpaceHyphens(TitleFrom(s, afterLetter))
  {
    if s != [] {
      var c, tail := s[0], s[1..];
      assert s == [c] + tail;
      var t := TitleFrom(s, afterLetter);
      var ct := TitleChar(c, afterLetter);
      TitleOfCons(c, tail, afterLetter);
      TitleCommutes(tail, IsLetter(c));
      SpaceHyphensOfCons(c, tail);
      SpaceHyphensOfCons(ct, TitleFrom(tail, IsLetter(c)));
      if c == '-' {
        TitleOfSpacedHyphen(SpaceHyphens(tail), afterLetter);
      } else {
        TitleOfCons(c, SpaceHyphens(tail), afterLetter);
      }
    }
  }

  lemma {:induction false} CollapseUndoesSpacing(s: string)
    ensures CollapseHyphens(SpaceHyphens(s)) == s
  {
    if s != [] {
      CollapseUndoesSpacing(s[1..]);
      var rest := SpaceHyphens(s[1..]);
      if s[0] == '-' {
        assert (" - " + rest)[..3] == " - " && (" - " + rest)[3..] == rest;
      } else {
        assert ([s[0]] + rest)[1..] == rest;
      }
    }
  }

  /** Spacing the hyphens before `title()` and removing the spaces after it
      leaves exactly `name.title()`: hyphens stay, a letter after a hyphen is
      upper-cased, and every letter that follows a letter is lower-cased. */
  lemma DisplayNameIsTitle(name: string)
    ensures DisplayName(name) == Title(name)
    ensures |DisplayName(name)| == |name|
    ensures forall i :: 0 <= i < |name| ==> DisplayName(name)[i] == TitleChar(name[i], i > 0 && IsLetter(name[i - 1]))
  {
    TitleCommutes(name, false);
    CollapseUndoesSpacing(Title(name));
    TitleSpec(name);
  }

  // ----- Gift picture -----

  datatype GiftPicture = Remote(image: Downloaded) | Asset(filename: string)

  /** Lines 123-133: the picture from the image server when the gift's id is
      known and the download succeeds, otherwise the local asset when a file
      name was given and the file exists, otherwise none. */
  function GiftImage(gifts: GiftTable, giftName: string, status: int, filename: Option<string>, assetExists: bool): (r: Option<GiftPicture>)
    ensures r.Some? && r.value.Remote? <==>
      GetGiftIdByName(gifts, giftName).Some? && GetGiftIdByName(gifts, giftName).value != [] && status == 200
    ensures r.Some? && r.value.Asset? ==> filename.Some? && filename.value != [] && assetExists && r.value.filename == filename.value
    ensures r.None? <==> (!(GetGiftIdByName(gifts, giftName).Some? && GetGiftIdByName(gifts, giftName).value != [] && status == 200) &&
      !(filename.Some? && filename.value != [] && assetExists))
  {
    var giftId := GetGiftIdByName(gifts, giftName);
    var remote := if giftId.Some? && giftId.value != [] then FetchGiftImageById(giftId.value, status) else None;
    if remote.Some? then Some(Remote(remote.value))
    else if filename.Some? && filename.value != [] && assetExists then Some(Asset(filename.value))
    else None
  }

  // ----- Layout -----

  const CARD_WIDTH: int := 1119
  const CARD_HEIGHT: int := 645
  const BG_WIDTH: int := 1280
  const BG_HEIGHT: int := 800
  const FRAME_WIDTH: int := 140
  const FRAME_HEIGHT: int := 50
  const FRAME_MARGIN: int := 30

  /** Line 94: the card's top-left corner, centred on the background. */
  function CardOffset(): (p: (int, int))
    ensures 0 <= BG_WIDTH - CARD_WIDTH - 2 * p.0 <= 1
    ensures 0 <= BG_HEIGHT - CARD_HEIGHT - 2 * p.1 <= 1
    ensures p == (80, 77)
  {
    ((BG_WIDTH - CARD_WIDTH) / 2, (BG_HEIGHT - CARD_HEIGHT) / 2)
  }

  /** Lines 172-173: the percent frame sits `FRAME_MARGIN` in from the top
      and right edges, wholly inside the card. */
  function FrameOrigin(): (p: (int, int))
    ensures p.0 + FRAME_WIDTH + FRAME_MARGIN == CARD_WIDTH && p.1 == FRAME_MARGIN
    ensures 0 <= p.0 && p.0 + FRAME_WIDTH <= CARD_WIDTH && p.1 + FRAME_HEIGHT <= CARD_HEIGHT
    ensures p == (949, 30)
  {
    (CARD_WIDTH - FRAME_WIDTH - FRAME_MARGIN, FRAME_MARGIN)
  }

  /** Lines 187-188: the percent text, centred across the frame and lifted
      two pixels above the vertical centre. */
  function PercentTextOrigin(textWidth: real, textHeight: real): (p: (real, real))
    ensures p.0 - FrameOrigin().0 as real == (FrameOrigin().0 + FRAME_WIDTH) as real - (p.0 + textWidth)
    ensures p.1 + 2.0 - FrameOrigin().1 as real == (FrameOrigin().1 + FRAME_HEIGHT) as real - (p.1 + 2.0 + textHeight)
  {
    var f := FrameOrigin();
    (f.0 as real + (FRAME_WIDTH as real - textWidth) / 2.0, f.1 as real + (FRAME_HEIGHT as real - textHeight) / 2.0 - 2.0)
  }

  // ----- The card -----

  datatype CardContent = CardContent(
    backdrop: (Rgb, Rgb),
    picture: Option<GiftPicture>,
    displayName: string,
    priceTon: real,
    priceUsd: real,
    priceStars: int,
    badge: (BadgeText, Rgb),
    offset: (int, int))

  /** Lines 94-169, `draw_card` up to drawing: what the card shows and where. */
  method DrawCard(
    gifts: GiftTable, giftName: string, priceStars: int, percentChange: real,
    backdropChoice: nat, status: int, filename: Option<string>, assetExists: bool)
    returns (c: CardContent)
    requires backdropChoice < |BACKDROP_COLORS|
    ensures ValidRgb(c.backdrop.0) && RgbHex(c.backdrop.0) == BACKDROP_COLORS[backdropChoice].hex.value.0[1..]
    ensures ValidRgb(c.backdrop.1) && RgbHex(c.backdrop.1) == BACKDROP_COLORS[backdropChoice].hex.value.1[1..]
    ensures c.picture == GiftImage(gifts, giftName, status, filename, assetExists)
    ensures c.displayName == Title(giftName) && c.priceStars == priceStars
    ensures c.priceTon == CardPrices(priceStars).0 && c.priceUsd == CardPrices(priceStars).1
    ensures c.badge == PercentBadge(percentChange)
    ensures c.badge.1 == POSITIVE_CHANGE_COLOR <==> percentChange >= 0.005
    ensures c.badge.1 == NEGATIVE_CHANGE_COLOR <==> percentChange <= -0.005
    ensures c.offset == (80, 77)
  {
    var backdrop := RandomBackdropPair(backdropChoice);
    var picture := GiftImage(gifts, giftName, status, filename, assetExists);
    DisplayNameIsTitle(giftName);
    var displayName := DisplayName(giftName);
    var prices := CardPrices(priceStars);
    var badge := PercentBadge(percentChange);
    c := CardContent(backdrop, picture, displayName, prices.0, prices.1, priceStars, badge, CardOffset());
  }
}
