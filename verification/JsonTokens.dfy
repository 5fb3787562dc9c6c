/**
 The tokens of JSON texts (RFC 8259, sections 2, 6 and 7) as derivations, apart from any parser: white space, strings
 with every legal spelling of their characters, and numbers. The parser reads exactly these.
 */
module JsonTokens {
  import Wrappers
  import opened Text
  import opened CanonicalJson

  // ---------------------------------------------------------------- white space (section 2)

  predicate IsBlank(s: string) {
    forall i | 0 <= i < |s| :: s[i] in " \t\n\r"
  }

  predicate StartsBlank(s: string) {
    s != [] && s[0] in " \t\n\r"
  }

  lemma {:induction false} BlankIsSkipped(blank: string, s: string)
    requires IsBlank(blank) && !StartsBlank(s)
    ensures SkipSpace(blank + s) == s
  {
    if blank == [] {
      assert blank + s == s;
    } else {
      assert (blank + s)[1..] == blank[1..] + s;
      BlankIsSkipped(blank[1..], s);
    }
  }

  lemma {:induction false} SkippedIsBlank(s: string) returns (blank: string)
    ensures IsBlank(blank) && s == blank + SkipSpace(s) && !StartsBlank(SkipSpace(s))
  {
    if StartsBlank(s) {
      var more := SkippedIsBlank(s[1..]);
      blank := [s[0]] + more;
      assert s == [s[0]] + s[1..];
    } else {
      blank := [];
    }
  }

  lemma Regroup(a: string, b: string, c: string)
    ensures (a + b) + c == a + (b + c)
  {
  }

  // ---------------------------------------------------------------- strings (section 7)

  /** Four hexadecimal digits and what each stands for, the most significant first. */
  datatype FourHex = FourHex(text: string, digits: seq<int>)

  /** One way to write one character: itself, a short escape, a code unit, or a surrogate pair. */
  datatype Spelling =
    | Plain(c: char)
    | Short(letter: char, c: char)
    | Unit(hex: FourHex, c: char)
    | Pair(high: FourHex, low: FourHex, c: char)

  const SHORT_LETTERS := "\"\\/bfnrt"
  const SHORT_CHARACTERS := "\"\\/\U{0008}\U{000C}\n\r\t"

  predicate IsShort(letter: char, c: char) {
    exists i | 0 <= i < 8 :: SHORT_LETTERS[i] == letter && SHORT_CHARACTERS[i] == c
  }

  predicate IsHexDigit(c: char, n: int) {
    0 <= n < 16 && (c == "0123456789abcdef"[n] || c == "0123456789ABCDEF"[n])
  }

  predicate IsHex(h: FourHex) {
    |h.text| == 4 && |h.digits| == 4 && forall i | 0 <= i < 4 :: IsHexDigit(h.text[i], h.digits[i])
  }

  function CodeUnit(h: FourHex): int
    requires IsHex(h)
  {
    4096 * h.digits[0] + 256 * h.digits[1] + 16 * h.digits[2] + h.digits[3]
  }

  predicate IsPair(high: FourHex, low: FourHex, c: char) {
    && IsHex(high) && IsHex(low) && 0xD800 <= CodeUnit(high) < 0xDC00 && 0xDC00 <= CodeUnit(low) < 0xE000
    && c as int == 0x1_0000 + (CodeUnit(high) - 0xD800) * 0x400 + (CodeUnit(low) - 0xDC00)
  }

  /** Control characters may stand for themselves, as for a parser that is not strict. */
  predicate IsSpelling(p: Spelling) {
    match p
    case Plain(c) => c != '\"' && c != '\\'
    case Short(letter, c) => IsShort(letter, c)
    case Unit(hex, c) => IsHex(hex) && c as int == CodeUnit(hex)
    case Pair(high, low, c) => IsPair(high, low, c)
  }

  function Written(p: Spelling): (s: string)
    ensures s != []
  {
    match p
    case Plain(c) => [c]
    case Short(letter, _) => ['\\', letter]
    case Unit(hex, _) => ['\\', 'u'] + hex.text
    case Pair(high, low, _) => ['\\', 'u'] + (high.text + (['\\', 'u'] + low.text))
  }

  predicate AreSpellings(chars: seq<Spelling>) {
    forall i | 0 <= i < |chars| :: IsSpelling(chars[i])
  }

  function WrittenAll(chars: seq<Spelling>): string {
    if chars == [] then [] else Written(chars[0]) + WrittenAll(chars[1..])
  }

  function Said(chars: seq<Spelling>): (text: string)
    ensures |text| == |chars| && forall i | 0 <= i < |chars| :: text[i] == chars[i].c
  {
    if chars == [] then [] else [chars[0].c] + Said(chars[1..])
  }

  lemma HexDigitIsValue(c: char, n: int)
    ensures IsHexDigit(c, n) <==> n >= 0 && HexValue(c) == n
  {
  }

  lemma Hex4OfValues(s: string)
    requires |s| >= 4 && forall i | 0 <= i < 4 :: HexValue(s[i]) >= 0
    ensures Hex4(s) == 4096 * HexValue(s[0]) + 256 * HexValue(s[1]) + 16 * HexValue(s[2]) + HexValue(s[3])
  {
  }

  lemma HexIsHex4(h: FourHex, rest: string)
    requires IsHex(h)
    ensures Hex4(h.text + rest) == CodeUnit(h) && (h.text + rest)[4..] == rest && 0 <= CodeUnit(h) < 0x1_0000
  {
    forall i | 0 <= i < 4 ensures HexValue((h.text + rest)[i]) == h.digits[i] && 0 <= h.digits[i] < 16 {
      HexDigitIsValue(h.text[i], h.digits[i]);
    }
    Hex4OfValues(h.text + rest);
  }

  lemma Hex4IsHex(s: string) returns (h: FourHex)
    requires Hex4(s) >= 0
    ensures |s| >= 4 && IsHex(h) && h.text == s[..4] && CodeUnit(h) == Hex4(s)
  {
    h := FourHex(s[..4], [HexValue(s[0]), HexValue(s[1]), HexValue(s[2]), HexValue(s[3])]);
    forall i | 0 <= i < 4 ensures IsHexDigit(h.text[i], h.digits[i]) {
      HexDigitIsValue(h.text[i], h.digits[i]);
    }
    Hex4OfValues(s);
  }

  lemma UnitParses(hex: FourHex, c: char, rest: string)
    requires IsHex(hex) && c as int == CodeUnit(hex)
    ensures ParseUnicode(hex.text + rest) == Got(c, rest)
  {
    HexIsHex4(hex, rest);
  }

  lemma PairIsRead(s: string, tail: string, low: string, rest: string, h: int, l: int, c: char)
    requires Hex4(s) == h && |s| >= 4 && s[4..] == tail && tail == ['\\', 'u'] + (low + rest)
    requires |low| == 4 && Hex4(low + rest) == l && 0xD800 <= h < 0xDC00 && 0xDC00 <= l < 0xE000
    requires c as int == 0x1_0000 + (h - 0xD800) * 0x400 + (l - 0xDC00)
    ensures ParseUnicode(s) == Got(c, rest)
  {
    assert s[4] == tail[0] && s[5] == tail[1] && s[6..] == tail[2..] == low + rest;
    assert s[10..] == (low + rest)[4..] == rest;
  }

  lemma PairParses(high: FourHex, low: FourHex, c: char, rest: string)
    requires IsPair(high, low, c)
    ensures ParseUnicode(high.text + (['\\', 'u'] + (low.text + rest))) == Got(c, rest)
  {
    var tail := ['\\', 'u'] + (low.text + rest);
    HexIsHex4(high, tail);
    HexIsHex4(low, rest);
    PairIsRead(high.text + tail, tail, low.text, rest, CodeUnit(high), CodeUnit(low), c);
  }

  lemma ShortParses(letter: char, c: char)
    ensures IsShort(letter, c) <==> Unescaped(letter) == Wrappers.Some(c)
  {
    if Unescaped(letter) == Wrappers.Some(c) {
      assert exists i | 0 <= i < 8 :: SHORT_LETTERS[i] == letter && SHORT_CHARACTERS[i] == c by {
        var i := if letter == '\"' then 0 else if letter == '\\' then 1 else if letter == '/' then 2
                 else if letter == 'b' then 3 else if letter == 'f' then 4 else if letter == 'n' then 5
                 else if letter == 'r' then 6 else 7;
        assert SHORT_LETTERS[i] == letter && SHORT_CHARACTERS[i] == c;
      }
    }
  }

  lemma PrependNothing<T>(p: Parsed<seq<T>>)
    ensures Prepend([], p) == p
  {
    if p.Got? {
      assert [] + p.value == p.value;
    }
  }

  lemma PrependTwice<T>(a: seq<T>, b: seq<T>, p: Parsed<seq<T>>)
    ensures Prepend(a, Prepend(b, p)) == Prepend(a + b, p)
  {
    if p.Got? {
      assert a + (b + p.value) == (a + b) + p.value;
    }
  }

  lemma EscapeIsRead(s: string, c: char, escape: string, rest: string)
    requires s == ['\\'] + escape && ParseEscape(escape) == Got(c, rest)
    ensures ParseString(s) == Prepend([c], ParseString(rest))
  {
    assert s[1..] == escape;
  }

  lemma CodeEscapeParses(code: string, c: char, rest: string)
    requires ParseUnicode(code) == Got(c, rest)
    ensures ParseEscape(['u'] + code) == Got(c, rest)
  {
    assert (['u'] + code)[1..] == code;
  }

  lemma ShortSpellingParses(letter: char, c: char, rest: string)
    requires IsShort(letter, c)
    ensures ParseString(['\\', letter] + rest) == Prepend([c], ParseString(rest))
  {
    ShortParses(letter, c);
    assert ([letter] + rest)[1..] == rest;
    assert ['\\', letter] + rest == ['\\'] + ([letter] + rest);
    EscapeIsRead(['\\', letter] + rest, c, [letter] + rest, rest);
  }

  lemma UnitSpellingParses(hex: FourHex, c: char, rest: string)
    requires IsHex(hex) && c as int == CodeUnit(hex)
    ensures ParseString(['\\', 'u'] + hex.text + rest) == Prepend([c], ParseString(rest))
  {
    UnitParses(hex, c, rest);
    CodeEscapeParses(hex.text + rest, c, rest);
    assert ['\\', 'u'] + hex.text + rest == ['\\'] + (['u'] + (hex.text + rest));
    EscapeIsRead(['\\', 'u'] + hex.text + rest, c, ['u'] + (hex.text + rest), rest);
  }

  lemma PairRegroups(high: string, low: string, rest: string)
    ensures ['\\', 'u'] + (high + (['\\', 'u'] + low)) + rest
         == ['\\'] + (['u'] + (high + (['\\', 'u'] + (low + rest))))
  {
    assert (['\\', 'u'] + low) + rest == ['\\', 'u'] + (low + rest);
    Regroup(high, ['\\', 'u'] + low, rest);
    var inner := high + (['\\', 'u'] + low);
    assert ['\\', 'u'] + inner + rest == ['\\'] + (['u'] + (inner + rest));
  }

  lemma PairSpellingParses(high: FourHex, low: FourHex, c: char, rest: string)
    requires IsPair(high, low, c)
    ensures ParseString(['\\', 'u'] + (high.text + (['\\', 'u'] + low.text)) + rest) == Prepend([c], ParseString(rest))
  {
    var s := ['\\', 'u'] + (high.text + (['\\', 'u'] + low.text)) + rest;
    var code := high.text + (['\\', 'u'] + (low.text + rest));
    PairParses(high, low, c, rest);
    CodeEscapeParses(code, c, rest);
    PairRegroups(high.text, low.text, rest);
    EscapeIsRead(s, c, ['u'] + code, rest);
  }

  lemma SpellingParses(p: Spelling, rest: string)
    requires IsSpelling(p)
    ensures ParseString(Written(p) + rest) == Prepend([p.c], ParseString(rest))
  {
    match p
    case Plain(c) => assert ([c] + rest)[1..] == rest;
    case Short(letter, c) => ShortSpellingParses(letter, c, rest);
    case Unit(hex, c) => UnitSpellingParses(hex, c, rest);
    case Pair(high, low, c) => PairSpellingParses(high, low, c, rest);
  }

  lemma {:induction false} SpellingsParse(chars: seq<Spelling>, tail: string)
    requires AreSpellings(chars)
    ensures ParseString(WrittenAll(chars) + tail) == Prepend(Said(chars), ParseString(tail))
  {
    if chars == [] {
      assert WrittenAll(chars) + tail == tail;
      PrependNothing<char>(ParseString(tail));
    } else {
      var more := WrittenAll(chars[1..]) + tail;
      SpellingsParse(chars[1..], tail);
      SpellingParses(chars[0], more);
      Regroup(Written(chars[0]), WrittenAll(chars[1..]), tail);
      PrependTwice([chars[0].c], Said(chars[1..]), ParseString(tail));
    }
  }

  /** A string in quotes. */
  function QuotedText(chars: seq<Spelling>): string {
    "\"" + (WrittenAll(chars) + "\"")
  }

  lemma Unquoted(body: string, s: string, rest: string)
    requires s == "\"" + (body + "\"") + rest
    ensures s[0] == '\"' && s[1..] == body + (['\"'] + rest)
  {
  }

  lemma ClosingQuote(rest: string)
    ensures ParseString(['\"'] + rest) == Got([], rest)
  {
    assert (['\"'] + rest)[1..] == rest;
  }

  /** Reading back a string, in whatever text it stands. */
  lemma QuotedTextParses(chars: seq<Spelling>, s: string, rest: string)
    requires AreSpellings(chars) && s == QuotedText(chars) + rest
    ensures s[0] == '\"' && ParseString(s[1..]) == Got(Said(chars), rest)
  {
    Unquoted(WrittenAll(chars), s, rest);
    SpellingsParse(chars, ['\"'] + rest);
    ClosingQuote(rest);
    assert Said(chars) + [] == Said(chars);
  }

  lemma PairIsWritten(s: string) returns (p: Spelling)
    requires ParseUnicode(s).Got? && !IsScalar(Hex4(s))
    ensures IsSpelling(p) && p.c == ParseUnicode(s).value && Written(p) + ParseUnicode(s).rest == ['\\', 'u'] + s
  {
    var high := Hex4IsHex(s);
    var low := Hex4IsHex(s[6..]);
    p := Pair(high, low, ParseUnicode(s).value);
    assert s[6..] == low.text + s[10..];
    JoinPair(s, high.text, low.text, s[10..]);
  }

  lemma JoinPair(s: string, high: string, low: string, rest: string)
    requires |s| >= 6 && s[..4] == high && s[4] == '\\' && s[5] == 'u' && s[6..] == low + rest
    ensures ['\\', 'u'] + (high + (['\\', 'u'] + low)) + rest == ['\\', 'u'] + s
  {
    assert s == s[..4] + (s[4..6] + s[6..]) && s[4..6] == ['\\', 'u'];
  }

  lemma UnicodeIsWritten(s: string) returns (p: Spelling)
    requires ParseUnicode(s).Got?
    ensures IsSpelling(p) && p.c == ParseUnicode(s).value && Written(p) + ParseUnicode(s).rest == ['\\', 'u'] + s
  {
    if IsScalar(Hex4(s)) {
      var hex := Hex4IsHex(s);
      p := Unit(hex, Hex4(s) as char);
      assert s == s[..4] + s[4..];
    } else {
      p := PairIsWritten(s);
    }
  }

  lemma EscapeIsWritten(s: string) returns (p: Spelling)
    requires ParseEscape(s).Got?
    ensures IsSpelling(p) && p.c == ParseEscape(s).value && ['\\'] + s == Written(p) + ParseEscape(s).rest
  {
    assert s == [s[0]] + s[1..];
    if s[0] == 'u' {
      p := UnicodeIsWritten(s[1..]);
      assert ['\\'] + s == ['\\', 'u'] + s[1..];
    } else {
      ShortParses(s[0], Unescaped(s[0]).value);
      p := Short(s[0], Unescaped(s[0]).value);
    }
  }

  /** Whatever the parser takes for a string is the legal writing of what it reads. */
  lemma {:induction false} StringIsWritten(s: string) returns (chars: seq<Spelling>)
    requires ParseString(s).Got?
    ensures AreSpellings(chars) && Said(chars) == ParseString(s).value
    ensures s == WrittenAll(chars) + (['\"'] + ParseString(s).rest)
    decreases |s|
  {
    assert s == [s[0]] + s[1..];
    if s[0] == '\"' {
      chars := [];
    } else {
      var p, more;
      if s[0] == '\\' {
        p := EscapeIsWritten(s[1..]);
        more := ParseEscape(s[1..]).rest;
      } else {
        p, more := Plain(s[0]), s[1..];
      }
      var others := StringIsWritten(more);
      chars := [p] + others;
      FirstWritten(p, others, s, more, ParseString(s).rest);
    }
  }

  lemma FirstWritten(p: Spelling, others: seq<Spelling>, s: string, more: string, rest: string)
    requires s == Written(p) + more && more == WrittenAll(others) + (['\"'] + rest)
    ensures s == WrittenAll([p] + others) + (['\"'] + rest) && Said([p] + others) == [p.c] + Said(others)
  {
    assert ([p] + others)[1..] == others;
  }

  // ---------------------------------------------------------------- numbers (section 6)

  /** A number part by part; an absent fraction or exponent is empty. */
  datatype Numeral = Numeral(minus: bool, whole: string, fraction: string, e: string, power: string)

  predicate AreDigits(s: string) {
    forall i | 0 <= i < |s| :: s[i] in "0123456789"
  }

  predicate IsExponentPart(e: string, power: string) {
    && AreDigits(power) && (e == "" <==> power == "")
    && (e == "" || e == "e" || e == "E" || e == "e+" || e == "E+" || e == "e-" || e == "E-")
  }

  predicate IsNumeral(n: Numeral) {
    && AreDigits(n.whole) && n.whole != "" && (n.whole == "0" || n.whole[0] != '0')
    && AreDigits(n.fraction) && IsExponentPart(n.e, n.power)
  }

  function NumeralText(n: Numeral): string {
    (if n.minus then "-" else "") + (n.whole + FractionText(n.fraction, n.e + n.power))
  }

  function FractionText(fraction: string, exponent: string): string {
    (if fraction == "" then "" else "." + fraction) + exponent
  }

  lemma {:induction false} DigitsAreDropped(digits: string, rest: string)
    requires AreDigits(digits) && (rest == [] || !IsDigit(rest[0]))
    ensures DropDigits(digits + rest) == rest
  {
    if digits == [] {
      assert digits + rest == rest;
    } else {
      assert (digits + rest)[1..] == digits[1..] + rest;
      DigitsAreDropped(digits[1..], rest);
    }
  }

  lemma {:induction false} DroppedAreDigits(s: string) returns (digits: string)
    ensures AreDigits(digits) && s == digits + DropDigits(s)
    ensures DropDigits(s) == [] || !IsDigit(DropDigits(s)[0])
  {
    if s != [] && IsDigit(s[0]) {
      var more := DroppedAreDigits(s[1..]);
      digits := [s[0]] + more;
      assert s == [s[0]] + s[1..];
    } else {
      digits := [];
    }
  }

  lemma PowerIsExponent(e: string, power: string)
    requires IsExponentPart(e, power)
    ensures IsExponent(e + power) && (e + power == "" || !IsDigit((e + power)[0])) && !("." <= e + power)
  {
    if e != "" {
      DigitsAreDropped(power, "");
      assert power + "" == power;
      assert (e + power)[|e|..] == power;
    }
  }

  lemma FractionIsFraction(fraction: string, e: string, power: string)
    requires AreDigits(fraction) && IsExponentPart(e, power)
    ensures var s := FractionText(fraction, e + power);
      IsFractionAndExponent(s) && (s == "" || !IsDigit(s[0]))
  {
    PowerIsExponent(e, power);
    if fraction == "" {
      assert FractionText(fraction, e + power) == e + power;
    } else {
      DigitsAreDropped(fraction, e + power);
      assert FractionText(fraction, e + power)[1..] == fraction + (e + power);
    }
  }

  lemma WholeIsNumber(whole: string, tail: string)
    requires AreDigits(whole) && whole != "" && (whole == "0" || whole[0] != '0')
    requires IsFractionAndExponent(tail) && (tail == "" || !IsDigit(tail[0]))
    ensures var s := whole + tail;
      && s != [] && IsDigit(s[0])
      && IsFractionAndExponent(if s[0] == '0' then s[1..] else DropDigits(s))
  {
    if whole == "0" {
      assert (whole + tail)[1..] == tail;
    } else {
      DigitsAreDropped(whole, tail);
    }
  }

  predicate AreNumberChars(s: string) {
    forall i | 0 <= i < |s| :: IsNumberChar(s[i])
  }

  lemma NumberCharsConcat(a: string, b: string)
    requires AreNumberChars(a) && AreNumberChars(b)
    ensures AreNumberChars(a + b)
  {
  }

  lemma DigitsAreNumberChars(digits: string)
    requires AreDigits(digits)
    ensures AreNumberChars(digits)
  {
  }

  lemma NumeralHasNumberChars(n: Numeral)
    requires IsNumeral(n)
    ensures AreNumberChars(NumeralText(n))
  {
    var tail := FractionText(n.fraction, n.e + n.power);
    DigitsAreNumberChars(n.whole);
    DigitsAreNumberChars(n.fraction);
    DigitsAreNumberChars(n.power);
    assert AreNumberChars(n.e);
    NumberCharsConcat(n.e, n.power);
    NumberCharsConcat(".", n.fraction);
    NumberCharsConcat(if n.fraction == "" then "" else "." + n.fraction, n.e + n.power);
    NumberCharsConcat(n.whole, tail);
    NumberCharsConcat(if n.minus then "-" else "", n.whole + tail);
  }

  lemma NumeralIsNumber(n: Numeral)
    requires IsNumeral(n)
    ensures IsNumber(NumeralText(n))
  {
    var tail := FractionText(n.fraction, n.e + n.power);
    FractionIsFraction(n.fraction, n.e, n.power);
    WholeIsNumber(n.whole, tail);
    NumeralHasNumberChars(n);
    if n.minus {
      assert NumeralText(n)[1..] == n.whole + tail;
    } else {
      assert NumeralText(n) == n.whole + tail;
    }
  }

  lemma ExponentHasPower(s: string) returns (e: string, power: string)
    requires IsExponent(s)
    ensures IsExponentPart(e, power) && s == e + power
  {
    if s == "" {
      e, power := "", "";
    } else {
      var n := if |s| > 1 && (s[1] == '+' || s[1] == '-') then 2 else 1;
      e, power := s[..n], s[n..];
      var digits := DroppedAreDigits(power);
      assert digits + "" == digits;
      assert n == 1 ==> e == [s[0]];
      assert n == 2 ==> e == [s[0], s[1]];
    }
  }

  lemma FractionHasParts(s: string) returns (fraction: string, e: string, power: string)
    requires IsFractionAndExponent(s)
    ensures AreDigits(fraction) && IsExponentPart(e, power) && s == FractionText(fraction, e + power)
  {
    if s != [] && s[0] == '.' {
      fraction := DroppedAreDigits(s[1..]);
      e, power := ExponentHasPower(DropDigits(s[1..]));
      assert s == "." + (fraction + (e + power));
      assert fraction != "";
    } else {
      fraction := "";
      e, power := ExponentHasPower(s);
    }
  }

  lemma NumberIsNumeral(s: string) returns (n: Numeral)
    requires IsNumber(s)
    ensures IsNumeral(n) && NumeralText(n) == s
  {
    var minus := s[0] == '-';
    var unsigned := if minus then s[1..] else s;
    var whole;
    if unsigned[0] == '0' {
      whole := "0";
    } else {
      whole := DroppedAreDigits(unsigned);
    }
    var tail := if unsigned[0] == '0' then unsigned[1..] else DropDigits(unsigned);
    assert unsigned == whole + tail;
    var fraction, e, power := FractionHasParts(tail);
    n := Numeral(minus, whole, fraction, e, power);
    assert s == (if minus then "-" else "") + unsigned;
  }
}
