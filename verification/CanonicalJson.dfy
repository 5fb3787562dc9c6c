/**
 The canonical text of tool arguments: objects sorted by key, no white space, minimal escapes. The grammar is
 the one of RFC 8259, sections 2 to 7. Numbers are tokens; a JSON object is its members in insertion order.
 */
module CanonicalJson {
  import opened Wrappers
  import opened Text

  datatype Json =
    | Null
    | Bool(value: bool)
    | Number(token: string)
    | Str(text: string)
    | Array(items: seq<Json>)
    | Object(members: seq<Member>)

  datatype Member = Member(key: string, value: Json)

  datatype Parsed<T> = Fail | Got(value: T, rest: string)

  // ---------------------------------------------------------------- numbers (section 6)

  predicate IsNumberChar(c: char) {
    IsDigit(c) || c == '-' || c == '+' || c == '.' || c == 'e' || c == 'E'
  }

  function DropDigits(s: string): (r: string)
    ensures |r| <= |s|
    ensures forall c | c in r :: c in s
  {
    if s != [] && IsDigit(s[0]) then DropDigits(s[1..]) else s
  }

  predicate IsExponent(s: string) {
    s == [] || ((s[0] == 'e' || s[0] == 'E')
      && var digits := if |s| > 1 && (s[1] == '+' || s[1] == '-') then s[2..] else s[1..];
         digits != [] && DropDigits(digits) == [])
  }

  predicate IsFractionAndExponent(s: string) {
    if s != [] && s[0] == '.'
    then |s| > 1 && IsDigit(s[1]) && IsExponent(DropDigits(s[1..]))
    else IsExponent(s)
  }

  predicate IsNumber(s: string) {
    var unsigned := if s != [] && s[0] == '-' then s[1..] else s;
    && (forall i | 0 <= i < |s| :: IsNumberChar(s[i]))
    && unsigned != [] && IsDigit(unsigned[0])
    && IsFractionAndExponent(if unsigned[0] == '0' then unsigned[1..] else DropDigits(unsigned))
  }

  /** How many number characters `s` begins with. */
  function NumberRun(s: string): (n: nat)
    ensures n <= |s|
    ensures forall i | 0 <= i < n :: IsNumberChar(s[i])
    ensures n < |s| ==> !IsNumberChar(s[n])
  {
    if s == [] || !IsNumberChar(s[0]) then 0 else 1 + NumberRun(s[1..])
  }

  // ---------------------------------------------------------------- strings (section 7)

  function Hex(n: nat): char
    requires n < 16
  {
    if n < 10 then '0' + n as char else 'a' + (n - 10) as char
  }

  function HexValue(c: char): int {
    if '0' <= c <= '9' then c as int - '0' as int
    else if 'a' <= c <= 'f' then c as int - 'a' as int + 10
    else if 'A' <= c <= 'F' then c as int - 'A' as int + 10
    else -1
  }

  /** The letter of a two-character escape, or NUL if there is none. */
  function EscapeLetter(c: char): char {
    match c
    case '\"' => '\"'
    case '\\' => '\\'
    case '\n' => 'n'
    case '\r' => 'r'
    case '\t' => 't'
    case '\U{0008}' => 'b'
    case '\U{000C}' => 'f'
    case _ => '\0'
  }

  function EscapeChar(c: char): (r: string)
    ensures r != []
  {
    if EscapeLetter(c) != '\0' then ['\\', EscapeLetter(c)]
    else if c < '\U{0020}' then ['\\', 'u', '0', '0', Hex(c as int / 16), Hex(c as int % 16)]
    else [c]
  }

  function Escape(text: string): string {
    if text == [] then [] else EscapeChar(text[0]) + Escape(text[1..])
  }

  /** The code unit after a backslash and a `u`, or -1. */
  function Hex4(s: string): int {
    if |s| < 4 || exists i | 0 <= i < 4 :: HexValue(s[i]) < 0 then -1
    else ((HexValue(s[0]) * 16 + HexValue(s[1])) * 16 + HexValue(s[2])) * 16 + HexValue(s[3])
  }

  predicate IsScalar(n: int) {
    0 <= n < 0xD800 || 0xE000 <= n < 0x11_0000
  }

  /** The character of a two-character escape. */
  function Unescaped(letter: char): Option<char> {
    match letter
    case '\"' => Some('\"')
    case '\\' => Some('\\')
    case '/' => Some('/')
    case 'b' => Some('\U{0008}')
    case 'f' => Some('\U{000C}')
    case 'n' => Some('\n')
    case 'r' => Some('\r')
    case 't' => Some('\t')
    case _ => None
  }

  /** `\uXXXX`, where a high surrogate must be followed by a low one; `s` begins after the `u`. */
  function ParseUnicode(s: string): (r: Parsed<char>)
    ensures r.Got? ==> |r.rest| < |s|
  {
    var high := Hex4(s);
    if IsScalar(high) then Got(high as char, s[4..])
    else if 0xD800 <= high < 0xDC00 && |s| >= 10 && s[4] == '\\' && s[5] == 'u' && 0xDC00 <= Hex4(s[6..]) < 0xE000
    then Got((0x1_0000 + (high - 0xD800) * 0x400 + (Hex4(s[6..]) - 0xDC00)) as char, s[10..])
    else Fail
  }

  /** One escape sequence; `s` begins after the backslash. */
  function ParseEscape(s: string): (r: Parsed<char>)
    ensures r.Got? ==> |r.rest| < |s|
  {
    if s == [] then Fail
    else if s[0] == 'u' then ParseUnicode(s[1..])
    else if Unescaped(s[0]).Some? then Got(Unescaped(s[0]).value, s[1..])
    else Fail
  }

  function Prepend<T>(front: seq<T>, p: Parsed<seq<T>>): (r: Parsed<seq<T>>)
    ensures r.Got? <==> p.Got?
    ensures r.Got? ==> r.rest == p.rest && r.value == front + p.value
  {
    match p
    case Fail => Fail
    case Got(back, rest) => Got(front + back, rest)
  }

  /** A string up to its closing quote; control characters may stand for themselves. */
  function ParseString(s: string): (r: Parsed<string>)
    ensures r.Got? ==> |r.rest| < |s|
    decreases |s|
  {
    if s == [] then Fail
    else if s[0] == '\"' then Got([], s[1..])
    else if s[0] == '\\' then
      match ParseEscape(s[1..]) {
        case Fail => Fail
        case Got(c, rest) => Prepend([c], ParseString(rest))
      }
    else Prepend([s[0]], ParseString(s[1..]))
  }

  // ---------------------------------------------------------------- values (sections 2 to 5)

  function SkipSpace(s: string): (r: string)
    ensures |r| <= |s|
  {
    if s != [] && (s[0] == ' ' || s[0] == '\t' || s[0] == '\n' || s[0] == '\r') then SkipSpace(s[1..]) else s
  }

  /** Assigning a key of a dictionary: in place if it exists, at the end otherwise. */
  function Assign(members: seq<Member>, m: Member): seq<Member> {
    if members == [] then [m]
    else if members[0].key == m.key then [m] + members[1..]
    else [members[0]] + Assign(members[1..], m)
  }

  /** The dictionary a list of members builds; later duplicates win. */
  function DictOf(members: seq<Member>): seq<Member> {
    if members == [] then [] else Assign(DictOf(members[..|members| - 1]), members[|members| - 1])
  }

  predicate DistinctKeys(members: seq<Member>) {
    forall i, j | 0 <= i < j < |members| :: members[i].key != members[j].key
  }

  /** The values a parse can produce. */
  predicate WellFormed(v: Json) {
    match v
    case Number(token) => IsNumber(token)
    case Array(items) => forall item | item in items :: WellFormed(item)
    case Object(members) => DistinctKeys(members) && forall m | m in members :: WellFormed(m.value)
    case _ => true
  }

  lemma {:induction false} AssignKeeps(members: seq<Member>, m: Member)
    requires DistinctKeys(members)
    ensures DistinctKeys(Assign(members, m))
    ensures forall x | x in Assign(members, m) :: x == m || x in members
  {
    if members != [] && members[0].key != m.key {
      assert DistinctKeys(members[1..]);
      AssignKeeps(members[1..], m);
      var rest := Assign(members[1..], m);
      forall i | 0 <= i < |rest| ensures rest[i].key != members[0].key {
        assert rest[i] in rest;
        if rest[i] != m {
          var k :| 0 <= k < |members[1..]| && members[1..][k] == rest[i];
          assert members[k + 1] == rest[i];
        }
      }
    }
  }

  lemma {:induction false} DictOfIsDict(members: seq<Member>)
    ensures DistinctKeys(DictOf(members))
    ensures forall x | x in DictOf(members) :: x in members
  {
    if members != [] {
      DictOfIsDict(members[..|members| - 1]);
      AssignKeeps(DictOf(members[..|members| - 1]), members[|members| - 1]);
    }
  }

  function Literal(s: string, word: string, v: Json): (r: Parsed<Json>)
    requires word != []
    ensures r.Got? ==> r.value == v && |r.rest| < |s|
  {
    if word <= s then Got(v, s[|word|..]) else Fail
  }

  function ParseValue(s: string): (r: Parsed<Json>)
    ensures r.Got? ==> |r.rest| < |s| && WellFormed(r.value)
    decreases |s|, 0
  {
    if s == [] then Fail
    else if s[0] == '\"' then
      match ParseString(s[1..]) {
        case Fail => Fail
        case Got(text, rest) => Got(Str(text), rest)
      }
    else if s[0] == '[' then
      var inner := SkipSpace(s[1..]);
      if inner != [] && inner[0] == ']' then Got(Array([]), inner[1..]) else
      match ParseItems(inner) {
        case Fail => Fail
        case Got(items, rest) => Got(Array(items), rest)
      }
    else if s[0] == '{' then
      var inner := SkipSpace(s[1..]);
      if inner != [] && inner[0] == '}' then Got(Object([]), inner[1..]) else
      match ParseMembers(inner) {
        case Fail => Fail
        case Got(members, rest) => DictOfIsDict(members); Got(Object(DictOf(members)), rest)
      }
    else if s[0] == 'n' then Literal(s, "null", Null)
    else if s[0] == 't' then Literal(s, "true", Bool(true))
    else if s[0] == 'f' then Literal(s, "false", Bool(false))
    else
      var n := NumberRun(s);
      if IsNumber(s[..n]) then Got(Number(s[..n]), s[n..]) else Fail
  }

  /** The items of an array, from the first one to the closing bracket. */
  function ParseItems(s: string): (r: Parsed<seq<Json>>)
    ensures r.Got? ==> |r.rest| < |s| && forall item | item in r.value :: WellFormed(item)
    decreases |s|, 1
  {
    match ParseValue(s)
    case Fail => Fail
    case Got(item, rest) =>
      var after := SkipSpace(rest);
      if after == [] then Fail
      else if after[0] == ']' then Got([item], after[1..])
      else if after[0] == ',' then
        Prepend([item], ParseItems(SkipSpace(after[1..])))
      else Fail
  }

  /** The members of an object, from the first key to the closing brace. */
  function ParseMembers(s: string): (r: Parsed<seq<Member>>)
    ensures r.Got? ==> |r.rest| < |s| && forall m | m in r.value :: WellFormed(m.value)
    decreases |s|, 1
  {
    if s == [] || s[0] != '\"' then Fail else
    match ParseString(s[1..])
    case Fail => Fail
    case Got(key, rest) =>
      var colon := SkipSpace(rest);
      if colon == [] || colon[0] != ':' then Fail else
      match ParseValue(SkipSpace(colon[1..]))
      case Fail => Fail
      case Got(value, rest') =>
        var after := SkipSpace(rest');
        if after == [] then Fail
        else if after[0] == '}' then Got([Member(key, value)], after[1..])
        else if after[0] == ',' then
          Prepend([Member(key, value)], ParseMembers(SkipSpace(after[1..])))
        else Fail
  }

  /** A whole text: one value with white space around it. */
  function Parse(s: string): (r: Parsed<Json>)
    ensures r.Got? ==> WellFormed(r.value)
  {
    match ParseValue(SkipSpace(s))
    case Fail => Fail
    case Got(v, rest) => if SkipSpace(rest) == [] then Got(v, []) else Fail
  }

  // ---------------------------------------------------------------- printing

  function Quoted(text: string): string {
    "\"" + Escape(text) + "\""
  }

  function Print(v: Json): string
    decreases v
  {
    match v
    case Null => "null"
    case Bool(b) => if b then "true" else "false"
    case Number(token) => token
    case Str(text) => Quoted(text)
    case Array(items) => "[" + PrintItems(items) + "]"
    case Object(members) => "{" + PrintMembers(members) + "}"
  }

  function PrintItems(items: seq<Json>): string
    decreases items
  {
    if items == [] then ""
    else if |items| == 1 then Print(items[0])
    else Print(items[0]) + "," + PrintItems(items[1..])
  }

  function PrintMembers(members: seq<Member>): string
    decreases members
  {
    if members == [] then ""
    else
      var first := Quoted(members[0].key) + ":" + Print(members[0].value);
      if |members| == 1 then first else first + "," + PrintMembers(members[1..])
  }

  // ---------------------------------------------------------------- what a value means

  /** A JSON value with its objects as maps. */
  datatype Value =
    | NullValue
    | BoolValue(b: bool)
    | NumberValue(token: string)
    | TextValue(text: string)
    | ArrayValue(items: seq<Value>)
    | ObjectValue(fields: map<string, Value>)

  function Meaning(v: Json): Value
    decreases v
  {
    match v
    case Null => NullValue
    case Bool(b) => BoolValue(b)
    case Number(token) => NumberValue(token)
    case Str(text) => TextValue(text)
    case Array(items) => ArrayValue(MeaningOfItems(items))
    case Object(members) => ObjectValue(MeaningOfMembers(members))
  }

  function MeaningOfItems(items: seq<Json>): (r: seq<Value>)
    ensures |r| == |items|
    ensures forall i | 0 <= i < |items| :: r[i] == Meaning(items[i])
    decreases items
  {
    if items == [] then [] else [Meaning(items[0])] + MeaningOfItems(items[1..])
  }

  function MeaningOfMembers(members: seq<Member>): (r: map<string, Value>)
    ensures forall k :: k in r <==> exists i :: 0 <= i < |members| && members[i].key == k
    decreases members
  {
    if members == [] then map[]
    else
      assert forall i | 0 < i < |members| :: members[i] == members[1..][i - 1];
      MeaningOfMembers(members[1..])[members[0].key := Meaning(members[0].value)]
  }

  lemma {:induction false} MeaningAt(members: seq<Member>, i: nat)
    requires DistinctKeys(members) && i < |members|
    ensures MeaningOfMembers(members)[members[i].key] == Meaning(members[i].value)
  {
    if i > 0 {
      MeaningAt(members[1..], i - 1);
      assert members[1..][i - 1] == members[i];
    }
  }
}
