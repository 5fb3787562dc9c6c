/**
 JSON texts (RFC 8259, sections 2 to 5) as derivation trees, apart from any parser: what may be written for a value,
 with any white space, any spelling of its strings and any repetition of keys. The parser accepts exactly these texts
 and reads from each the value it was written for.
 */
module JsonTexts {
  import opened CanonicalJson
  import opened JsonTokens

  datatype Tree =
    | Word(value: Json)
    | Numerical(numeral: Numeral)
    | Quote(chars: seq<Spelling>)
    | List(blank: string, items: seq<Item>)
    | Dict(blank: string, fields: seq<Field>)

  /** A value with the white space around it; a whole text is one, too. */
  datatype Item = Item(before: string, tree: Tree, after: string)

  /** A member with the white space around its key and its value. */
  datatype Field = Field(before: string, key: seq<Spelling>, behind: string, ahead: string, tree: Tree, after: string)

  predicate IsLegal(t: Tree) {
    match t
    case Word(v) => v.Null? || v.Bool?
    case Numerical(n) => IsNumeral(n)
    case Quote(chars) => AreSpellings(chars)
    case List(blank, items) => IsBlank(blank) && forall x | x in items :: IsLegalItem(x)
    case Dict(blank, fields) => IsBlank(blank) && forall f | f in fields :: IsLegalField(f)
  }

  predicate IsLegalItem(x: Item) {
    IsBlank(x.before) && IsBlank(x.after) && IsLegal(x.tree)
  }

  predicate IsLegalField(f: Field) {
    && IsBlank(f.before) && AreSpellings(f.key) && IsBlank(f.behind)
    && IsBlank(f.ahead) && IsLegal(f.tree) && IsBlank(f.after)
  }

  function WordText(v: Json): string {
    match v
    case Null => "null"
    case Bool(true) => "true"
    case Bool(false) => "false"
    case _ => ""
  }

  function TextOf(t: Tree): string
    decreases t
  {
    match t
    case Word(v) => WordText(v)
    case Numerical(n) => NumeralText(n)
    case Quote(chars) => QuotedText(chars)
    case List(blank, items) => "[" + ((if items == [] then blank else ItemsText(items)) + "]")
    case Dict(blank, fields) => "{" + ((if fields == [] then blank else FieldsText(fields)) + "}")
  }

  function ItemText(x: Item): string
    decreases x
  {
    x.before + (TextOf(x.tree) + x.after)
  }

  function ItemsText(items: seq<Item>): string
    requires items != []
    decreases items
  {
    if |items| == 1 then ItemText(items[0]) else ItemText(items[0]) + ("," + ItemsText(items[1..]))
  }

  function FieldText(f: Field): string
    decreases f
  {
    f.before + (QuotedText(f.key) + (f.behind + (":" + (f.ahead + (TextOf(f.tree) + f.after)))))
  }

  function FieldsText(fields: seq<Field>): string
    requires fields != []
    decreases fields
  {
    if |fields| == 1 then FieldText(fields[0]) else FieldText(fields[0]) + ("," + FieldsText(fields[1..]))
  }

  /** The value a text was written for, with the members of its objects in the order of a dictionary. */
  function JsonOf(t: Tree): Json
    decreases t
  {
    match t
    case Word(v) => v
    case Numerical(n) => Number(NumeralText(n))
    case Quote(chars) => Str(Said(chars))
    case List(_, items) => Array(JsonsOf(items))
    case Dict(_, fields) => Object(DictOf(MembersOf(fields)))
  }

  function JsonsOf(items: seq<Item>): (r: seq<Json>)
    ensures |r| == |items| && forall i | 0 <= i < |items| :: r[i] == JsonOf(items[i].tree)
    decreases items
  {
    if items == [] then [] else [JsonOf(items[0].tree)] + JsonsOf(items[1..])
  }

  function MembersOf(fields: seq<Field>): (r: seq<Member>)
    ensures |r| == |fields|
    ensures forall i | 0 <= i < |fields| :: r[i] == Member(Said(fields[i].key), JsonOf(fields[i].tree))
    decreases fields
  {
    if fields == [] then [] else [Member(Said(fields[0].key), JsonOf(fields[0].tree))] + MembersOf(fields[1..])
  }

  // ---------------------------------------------------------------- every text is read

  /** What may follow a value: something that cannot belong to a number. */
  predicate Ends(rest: string) {
    rest == [] || !IsNumberChar(rest[0])
  }

  lemma {:induction false} NumberRunStops(token: string, rest: string)
    requires AreNumberChars(token) && Ends(rest)
    ensures NumberRun(token + rest) == |token|
  {
    if token == [] {
      assert token + rest == rest;
    } else {
      assert (token + rest)[1..] == token[1..] + rest;
      NumberRunStops(token[1..], rest);
    }
  }

  lemma NumberStarts(token: string)
    requires IsNumber(token)
    ensures token != [] && (token[0] == '-' || '0' <= token[0] <= '9') && AreNumberChars(token)
  {
  }

  lemma NumberIsRead(token: string, s: string, rest: string)
    requires IsNumber(token) && Ends(rest) && s == token + rest
    ensures ParseValue(s) == Got(Number(token), rest)
  {
    NumberStarts(token);
    NumberRunStops(token, rest);
    assert s[..|token|] == token && s[|token|..] == rest;
    assert s[0] == token[0];
  }

  lemma WordParses(v: Json, s: string, rest: string)
    requires (v.Null? || v.Bool?) && s == WordText(v) + rest
    ensures ParseValue(s) == Got(v, rest)
  {
    var word := WordText(v);
    assert s[|word|..] == rest && word <= s;
  }

  /** A value begins with a character that neither is white space nor separates or closes anything. */
  lemma TextStarts(t: Tree)
    requires IsLegal(t)
    ensures TextOf(t) != [] && TextOf(t)[0] !in " \t\n\r,:]}"
  {
    if t.Numerical? {
      NumeralIsNumber(t.numeral);
      NumberStarts(NumeralText(t.numeral));
    }
  }

  lemma BlankEnds(blank: string, tail: string)
    requires IsBlank(blank) && tail != [] && tail[0] in ",]}"
    ensures Ends(blank + tail) && SkipSpace(blank + tail) == tail
  {
    BlankIsSkipped(blank, tail);
    if blank != [] {
      assert (blank + tail)[0] == blank[0];
    }
  }

  /** An item is read up to the comma or bracket behind it. */
  lemma ItemIsRead(s: string, item: Json, rest: string, tail: string)
    requires ParseValue(s) == Got(item, rest) && SkipSpace(rest) == tail && tail != []
    requires tail[0] == ',' || tail[0] == ']'
    ensures ParseItems(s)
         == if tail[0] == ']' then Got([item], tail[1..]) else Prepend([item], ParseItems(SkipSpace(tail[1..])))
  {
  }

  /** The white space before a value is skipped and the value with the white space behind it is read. */
  lemma {:induction false} ValueParses(before: string, t: Tree, after: string, tail: string)
    requires IsBlank(before) && IsLegal(t) && IsBlank(after) && tail != [] && tail[0] in ",]}"
    ensures var s := TextOf(t) + (after + tail);
      && SkipSpace(before + s) == s && s != [] && s[0] == TextOf(t)[0] && s[0] !in " \t\n\r,:]}"
      && ParseValue(s) == Got(JsonOf(t), after + tail) && SkipSpace(after + tail) == tail
    decreases t, 3
  {
    var s := TextOf(t) + (after + tail);
    TextStarts(t);
    BlankIsSkipped(before, s);
    BlankEnds(after, tail);
    TreeParses(t, s, after + tail);
  }

  lemma {:induction false} TreeParses(t: Tree, s: string, rest: string)
    requires IsLegal(t) && Ends(rest) && s == TextOf(t) + rest
    ensures ParseValue(s) == Got(JsonOf(t), rest)
    decreases t, 2
  {
    match t
    case Word(v) => WordParses(v, s, rest);
    case Numerical(n) =>
      NumeralIsNumber(n);
      NumberIsRead(NumeralText(n), s, rest);
    case Quote(chars) => QuotedTextParses(chars, s, rest);
    case List(blank, items) => ListParses(blank, items, s, rest);
    case Dict(blank, fields) => DictParses(blank, fields, s, rest);
  }

  lemma Bracketed(open: char, body: string, close: string, rest: string)
    ensures var s := [open] + (body + close) + rest;
      s != [] && s[0] == open && s[1..] == body + (close + rest)
  {
  }

  lemma {:induction false} ListParses(blank: string, items: seq<Item>, s: string, rest: string)
    requires IsLegal(List(blank, items)) && s == TextOf(List(blank, items)) + rest
    ensures ParseValue(s) == Got(Array(JsonsOf(items)), rest)
    decreases items, 1
  {
    var close := "]" + rest;
    if items == [] {
      Bracketed('[', blank, "]", rest);
      BlankEnds(blank, close);
      assert close[1..] == rest;
    } else {
      Bracketed('[', ItemsText(items), "]", rest);
      ItemsParse(items, ItemsText(items) + close, rest);
    }
  }

  lemma SplitItems(items: seq<Item>, close: string)
    requires items != []
    ensures var x := items[0];
      var tail := if |items| == 1 then close else "," + (ItemsText(items[1..]) + close);
      ItemsText(items) + close == x.before + (TextOf(x.tree) + (x.after + tail))
  {
    var x := items[0];
    if |items| == 1 {
      JoinItem(x.before, TextOf(x.tree), x.after, close);
    } else {
      var others := ItemsText(items[1..]);
      JoinItem(x.before, TextOf(x.tree), x.after, "," + (others + close));
      Regroup(ItemText(x), "," + others, close);
      Regroup(",", others, close);
    }
  }

  lemma JoinItem(before: string, text: string, after: string, tail: string)
    ensures before + (text + after) + tail == before + (text + (after + tail))
  {
    Regroup(text, after, tail);
    Regroup(before, text + after, tail);
  }

  lemma {:induction false} ItemParses(x: Item, tail: string)
    requires IsLegalItem(x) && tail != [] && (tail[0] == ',' || tail[0] == ']')
    ensures var s := TextOf(x.tree) + (x.after + tail);
      && SkipSpace(x.before + s) == s && s != [] && s[0] != ']'
      && ParseItems(s) == if tail[0] == ']' then Got([JsonOf(x.tree)], tail[1..])
                          else Prepend([JsonOf(x.tree)], ParseItems(SkipSpace(tail[1..])))
    decreases x, 4
  {
    ValueParses(x.before, x.tree, x.after, tail);
    ItemIsRead(TextOf(x.tree) + (x.after + tail), JsonOf(x.tree), x.after + tail, tail);
  }

  lemma {:induction false} ItemsParse(items: seq<Item>, text: string, rest: string)
    requires items != [] && forall x | x in items :: IsLegalItem(x)
    requires text == ItemsText(items) + ("]" + rest)
    ensures var s := SkipSpace(text);
      s != [] && s[0] != ']' && ParseItems(s) == Got(JsonsOf(items), rest)
    decreases items, 0
  {
    var close := "]" + rest;
    SplitItems(items, close);
    assert items[0] in items;
    if |items| == 1 {
      ItemParses(items[0], close);
      assert close[1..] == rest && JsonsOf(items) == [JsonOf(items[0].tree)];
    } else {
      var more := ItemsText(items[1..]) + close;
      ItemParses(items[0], "," + more);
      ItemsParse(items[1..], more, rest);
      assert ("," + more)[1..] == more;
    }
  }

  lemma {:induction false} DictParses(blank: string, fields: seq<Field>, s: string, rest: string)
    requires IsLegal(Dict(blank, fields)) && s == TextOf(Dict(blank, fields)) + rest
    ensures ParseValue(s) == Got(Object(DictOf(MembersOf(fields))), rest)
    decreases fields, 1
  {
    var close := "}" + rest;
    if fields == [] {
      Bracketed('{', blank, "}", rest);
      BlankEnds(blank, close);
      assert close[1..] == rest;
    } else {
      Bracketed('{', FieldsText(fields), "}", rest);
      FieldsParse(fields, FieldsText(fields) + close, rest);
    }
  }

  lemma SplitFields(fields: seq<Field>, close: string)
    requires fields != []
    ensures var f := fields[0];
      var tail := if |fields| == 1 then close else "," + (FieldsText(fields[1..]) + close);
      FieldsText(fields) + close
      == f.before + (QuotedText(f.key) + (f.behind + (":" + (f.ahead + (TextOf(f.tree) + (f.after + tail))))))
  {
    var f := fields[0];
    if |fields| == 1 {
      JoinField(f.before, QuotedText(f.key), f.behind, f.ahead, TextOf(f.tree), f.after, close);
    } else {
      var others := FieldsText(fields[1..]);
      JoinField(f.before, QuotedText(f.key), f.behind, f.ahead, TextOf(f.tree), f.after, "," + (others + close));
      Regroup(FieldText(f), "," + others, close);
      Regroup(",", others, close);
    }
  }

  lemma JoinField(before: string, key: string, behind: string, ahead: string, text: string, after: string, tail: string)
    ensures before + (key + (behind + (":" + (ahead + (text + after))))) + tail
         == before + (key + (behind + (":" + (ahead + (text + (after + tail))))))
  {
    Regroup(text, after, tail);
    Regroup(ahead, text + after, tail);
    Regroup(":", ahead + (text + after), tail);
    Regroup(behind, ":" + (ahead + (text + after)), tail);
    Regroup(key, behind + (":" + (ahead + (text + after))), tail);
    Regroup(before, key + (behind + (":" + (ahead + (text + after)))), tail);
  }

  /** A member is read as its key, a colon and its value, up to the comma or brace behind it. */
  lemma FieldIsRead(s: string, m: Member, afterKey: string, colon: string, valued: string, rest: string, tail: string)
    requires s != [] && s[0] == '\"' && ParseString(s[1..]) == Got(m.key, afterKey)
    requires SkipSpace(afterKey) == colon && colon == ":" + valued
    requires ParseValue(SkipSpace(valued)) == Got(m.value, rest) && SkipSpace(rest) == tail
    requires tail != [] && (tail[0] == ',' || tail[0] == '}')
    ensures ParseMembers(s)
         == if tail[0] == '}' then Got([m], tail[1..]) else Prepend([m], ParseMembers(SkipSpace(tail[1..])))
  {
    assert colon[1..] == valued;
  }

  lemma {:induction false} FieldParses(f: Field, tail: string)
    requires IsLegalField(f) && tail != [] && (tail[0] == ',' || tail[0] == '}')
    ensures var s := QuotedText(f.key) + (f.behind + (":" + (f.ahead + (TextOf(f.tree) + (f.after + tail)))));
      && SkipSpace(f.before + s) == s && s != [] && s[0] == '\"'
      && ParseMembers(s) == var m := Member(Said(f.key), JsonOf(f.tree));
                            if tail[0] == '}' then Got([m], tail[1..])
                            else Prepend([m], ParseMembers(SkipSpace(tail[1..])))
    decreases f, 4
  {
    var text := TextOf(f.tree) + (f.after + tail);
    var colon := ":" + (f.ahead + text);
    var s := QuotedText(f.key) + (f.behind + colon);
    QuotedTextParses(f.key, s, f.behind + colon);
    BlankIsSkipped(f.before, s);
    BlankIsSkipped(f.behind, colon);
    ValueParses(f.ahead, f.tree, f.after, tail);
    FieldIsRead(s, Member(Said(f.key), JsonOf(f.tree)), f.behind + colon, colon, f.ahead + text, f.after + tail, tail);
  }

  lemma {:induction false} FieldsParse(fields: seq<Field>, text: string, rest: string)
    requires fields != [] && forall f | f in fields :: IsLegalField(f)
    requires text == FieldsText(fields) + ("}" + rest)
    ensures var s := SkipSpace(text);
      s != [] && s[0] != '}' && ParseMembers(s) == Got(MembersOf(fields), rest)
    decreases fields, 0
  {
    var close := "}" + rest;
    SplitFields(fields, close);
    assert fields[0] in fields;
    if |fields| == 1 {
      FieldParses(fields[0], close);
      assert close[1..] == rest;
      assert MembersOf(fields) == [Member(Said(fields[0].key), JsonOf(fields[0].tree))];
    } else {
      var more := FieldsText(fields[1..]) + close;
      FieldParses(fields[0], "," + more);
      FieldsParse(fields[1..], more, rest);
      assert ("," + more)[1..] == more;
    }
  }

  // ---------------------------------------------------------------- what is read is a text

  /** `t` is a legal derivation of what the parser reads at the beginning of `s`. */
  ghost predicate Derives(t: Tree, s: string)
    requires ParseValue(s).Got?
  {
    IsLegal(t) && JsonOf(t) == ParseValue(s).value && s == TextOf(t) + ParseValue(s).rest
  }

  lemma Enclosed(s: string, open: char, body: string, close: string, rest: string)
    requires s != [] && s[0] == open && s[1..] == body + (close + rest)
    ensures s == [open] + (body + close) + rest
  {
    Regroup(body, close, rest);
    assert s == [open] + s[1..];
    Regroup([open], body + close, rest);
  }

  lemma ParsedIsQuote(s: string) returns (t: Tree)
    requires s != [] && s[0] == '\"' && ParseValue(s).Got?
    ensures Derives(t, s)
  {
    var chars := StringIsWritten(s[1..]);
    t := Quote(chars);
    Regroup(WrittenAll(chars), "\"", ParseValue(s).rest);
    Enclosed(s, '\"', WrittenAll(chars), "\"", ParseValue(s).rest);
  }

  lemma ParsedIsWord(s: string) returns (t: Tree)
    requires s != [] && (s[0] == 'n' || s[0] == 't' || s[0] == 'f') && ParseValue(s).Got?
    ensures Derives(t, s)
  {
    t := Word(ParseValue(s).value);
    var word := if s[0] == 'n' then "null" else if s[0] == 't' then "true" else "false";
    assert s == word + s[|word|..];
  }

  lemma ParsedIsNumber(s: string) returns (t: Tree)
    requires s != [] && s[0] !in "\"[{ntf" && ParseValue(s).Got?
    ensures Derives(t, s)
  {
    var n := NumberIsNumeral(s[..NumberRun(s)]);
    t := Numerical(n);
    assert s == s[..NumberRun(s)] + s[NumberRun(s)..];
  }

  /** Whatever the parser takes for a value is a legal text of what it reads. */
  lemma {:induction false} ParsedIsTree(s: string) returns (t: Tree)
    requires ParseValue(s).Got?
    ensures Derives(t, s)
    decreases |s|, 0
  {
    if s[0] == '\"' {
      t := ParsedIsQuote(s);
    } else if s[0] == '[' {
      t := ParsedIsList(s);
    } else if s[0] == '{' {
      t := ParsedIsDict(s);
    } else if s[0] == 'n' || s[0] == 't' || s[0] == 'f' {
      t := ParsedIsWord(s);
    } else {
      t := ParsedIsNumber(s);
    }
  }

  lemma {:induction false} ParsedIsList(s: string) returns (t: Tree)
    requires s != [] && s[0] == '[' && ParseValue(s).Got?
    ensures Derives(t, s)
    decreases |s|, -1
  {
    var blank := SkippedIsBlank(s[1..]);
    var inner, rest := SkipSpace(s[1..]), ParseValue(s).rest;
    if inner != [] && inner[0] == ']' {
      t := List(blank, []);
      assert inner == "]" + rest;
      Enclosed(s, '[', blank, "]", rest);
    } else {
      var items := ItemsAreTexts(blank, inner);
      t := List("", items);
      Enclosed(s, '[', ItemsText(items), "]", rest);
    }
  }

  lemma {:induction false} ItemsAreTexts(before: string, s: string) returns (items: seq<Item>)
    requires IsBlank(before) && ParseItems(s).Got?
    ensures items != [] && (forall x | x in items :: IsLegalItem(x)) && JsonsOf(items) == ParseItems(s).value
    ensures before + s == ItemsText(items) + ("]" + ParseItems(s).rest)
    decreases |s|, 1
  {
    var t := ParsedIsTree(s);
    var rest := ParseValue(s).rest;
    var after := SkippedIsBlank(rest);
    var tail := SkipSpace(rest);
    var x := Item(before, t, after);
    assert tail == [tail[0]] + tail[1..];
    JoinItem(before, TextOf(t), after, tail);
    if tail[0] == ']' {
      items := [x];
    } else {
      var before' := SkippedIsBlank(tail[1..]);
      var others := ItemsAreTexts(before', SkipSpace(tail[1..]));
      items := [x] + others;
      assert items[1..] == others;
      SplitItems(items, "]" + ParseItems(s).rest);
    }
  }

  lemma {:induction false} ParsedIsDict(s: string) returns (t: Tree)
    requires s != [] && s[0] == '{' && ParseValue(s).Got?
    ensures Derives(t, s)
    decreases |s|, -1
  {
    var blank := SkippedIsBlank(s[1..]);
    var inner, rest := SkipSpace(s[1..]), ParseValue(s).rest;
    if inner != [] && inner[0] == '}' {
      t := Dict(blank, []);
      assert inner == "}" + rest;
      Enclosed(s, '{', blank, "}", rest);
    } else {
      var fields := MembersAreTexts(blank, inner);
      t := Dict("", fields);
      Enclosed(s, '{', FieldsText(fields), "}", rest);
    }
  }

  /** The first member the parser reads, and what it finds behind it. */
  lemma {:induction false} MemberIsText(before: string, s: string) returns (f: Field, m: Member, tail: string)
    requires IsBlank(before) && ParseMembers(s).Got?
    ensures IsLegalField(f) && tail != [] && (tail[0] == ',' || tail[0] == '}')
    ensures before + s
         == f.before + (QuotedText(f.key) + (f.behind + (":" + (f.ahead + (TextOf(f.tree) + (f.after + tail))))))
    ensures m == Member(Said(f.key), JsonOf(f.tree)) && |tail| < |s|
    ensures ParseMembers(s)
         == if tail[0] == '}' then Got([m], tail[1..]) else Prepend([m], ParseMembers(SkipSpace(tail[1..])))
    decreases |s|, 0
  {
    var key := StringIsWritten(s[1..]);
    var afterKey := ParseString(s[1..]).rest;
    var behind := SkippedIsBlank(afterKey);
    var colon := SkipSpace(afterKey);
    var ahead := SkippedIsBlank(colon[1..]);
    var valued := SkipSpace(colon[1..]);
    var t := ParsedIsTree(valued);
    var rest := ParseValue(valued).rest;
    var after := SkippedIsBlank(rest);
    tail := SkipSpace(rest);
    f := Field(before, key, behind, ahead, t, after);
    m := Member(Said(key), JsonOf(t));
    Enclosed(s, '\"', WrittenAll(key), "\"", afterKey);
    assert colon == ":" + colon[1..];
  }

  lemma OneMoreField(f: Field, others: seq<Field>, text: string, rest: string)
    requires others != [] && text == FieldsText(others) + ("}" + rest)
    ensures var tail := "," + text;
      FieldsText([f] + others) + ("}" + rest)
      == f.before + (QuotedText(f.key) + (f.behind + (":" + (f.ahead + (TextOf(f.tree) + (f.after + tail))))))
    ensures MembersOf([f] + others) == [Member(Said(f.key), JsonOf(f.tree))] + MembersOf(others)
    ensures forall x | x in [f] + others :: x == f || x in others
  {
    assert ([f] + others)[1..] == others;
    SplitFields([f] + others, "}" + rest);
  }

  lemma {:induction false} MembersAreTexts(before: string, s: string) returns (fields: seq<Field>)
    requires IsBlank(before) && ParseMembers(s).Got?
    ensures fields != [] && (forall f | f in fields :: IsLegalField(f)) && MembersOf(fields) == ParseMembers(s).value
    ensures before + s == FieldsText(fields) + ("}" + ParseMembers(s).rest)
    decreases |s|, 1
  {
    var f, m, tail := MemberIsText(before, s);
    if tail[0] == '}' {
      fields := [f];
      assert tail == "}" + tail[1..];
      SplitFields(fields, tail);
    } else {
      var before' := SkippedIsBlank(tail[1..]);
      var others := MembersAreTexts(before', SkipSpace(tail[1..]));
      assert tail == "," + tail[1..];
      OneMoreField(f, others, tail[1..], ParseMembers(s).rest);
      fields := [f] + others;
    }
  }

  // ---------------------------------------------------------------- whole texts

  /** Every legal text is accepted, and it is read as the value it was written for. */
  lemma TextIsAccepted(x: Item)
    requires IsLegalItem(x)
    ensures Parse(ItemText(x)) == Got(JsonOf(x.tree), [])
  {
    TextStarts(x.tree);
    BlankIsSkipped(x.before, TextOf(x.tree) + x.after);
    assert x.after + [] == x.after;
    BlankIsSkipped(x.after, []);
    assert Ends(x.after);
    TreeParses(x.tree, TextOf(x.tree) + x.after, x.after);
  }

  /** A text is accepted exactly when it is legal. */
  lemma AcceptedIffText(s: string)
    ensures Parse(s).Got? <==> exists x :: IsLegalItem(x) && s == ItemText(x)
  {
    if Parse(s).Got? {
      var before := SkippedIsBlank(s);
      var t := ParsedIsTree(SkipSpace(s));
      var after := SkippedIsBlank(ParseValue(SkipSpace(s)).rest);
      assert after + [] == after;
      assert IsLegalItem(Item(before, t, after)) && s == ItemText(Item(before, t, after));
    }
    if x :| IsLegalItem(x) && s == ItemText(x) {
      TextIsAccepted(x);
    }
  }

  // ---------------------------------------------------------------- what a text means

  /** The value of a text with its objects as maps; of members with the same key the last one counts. */
  function Denotes(t: Tree): Value
    decreases t
  {
    match t
    case Word(Bool(b)) => BoolValue(b)
    case Word(_) => NullValue
    case Numerical(n) => NumberValue(NumeralText(n))
    case Quote(chars) => TextValue(Said(chars))
    case List(_, items) => ArrayValue(ItemsDenote(items))
    case Dict(_, fields) => ObjectValue(FieldsDenote(fields))
  }

  function ItemsDenote(items: seq<Item>): (r: seq<Value>)
    ensures |r| == |items| && forall i | 0 <= i < |items| :: r[i] == Denotes(items[i].tree)
    decreases items
  {
    if items == [] then [] else [Denotes(items[0].tree)] + ItemsDenote(items[1..])
  }

  function FieldsDenote(fields: seq<Field>): map<string, Value>
    decreases fields
  {
    if fields == [] then map[]
    else
      var last := fields[|fields| - 1];
      FieldsDenote(fields[..|fields| - 1])[Said(last.key) := Denotes(last.tree)]
  }

  lemma FirstMeans(first: Member, others: seq<Member>)
    ensures MeaningOfMembers([first] + others) == MeaningOfMembers(others)[first.key := Meaning(first.value)]
  {
    assert ([first] + others)[1..] == others;
  }

  lemma UpdatesCommute<K, V>(m: map<K, V>, a: K, x: V, b: K, y: V)
    requires a != b
    ensures m[a := x][b := y] == m[b := y][a := x]
  {
  }

  lemma {:induction false} AssignMeans(members: seq<Member>, m: Member)
    requires DistinctKeys(members)
    ensures MeaningOfMembers(Assign(members, m)) == MeaningOfMembers(members)[m.key := Meaning(m.value)]
  {
    if members == [] {
      FirstMeans(m, []);
      assert [m] + [] == [m];
    } else {
      var first, others := members[0], members[1..];
      assert [first] + others == members;
      FirstMeans(first, others);
      if first.key == m.key {
        FirstMeans(m, others);
      } else {
        AssignMeans(others, m);
        FirstMeans(first, Assign(others, m));
        UpdatesCommute(MeaningOfMembers(others), first.key, Meaning(first.value), m.key, Meaning(m.value));
      }
    }
  }

  /** What is read from a text means what the text denotes. */
  lemma {:induction false} TextMeans(t: Tree)
    requires IsLegal(t)
    ensures Meaning(JsonOf(t)) == Denotes(t)
    decreases t
  {
    match t
    case List(_, items) =>
      forall i | 0 <= i < |items| ensures Meaning(JsonOf(items[i].tree)) == Denotes(items[i].tree) {
        assert items[i] in items;
        TextMeans(items[i].tree);
      }
      assert MeaningOfItems(JsonsOf(items)) == ItemsDenote(items);
    case Dict(_, fields) => FieldsMean(fields);
    case _ =>
  }

  lemma MembersOfFront(fields: seq<Field>)
    requires fields != []
    ensures var front, last := fields[..|fields| - 1], fields[|fields| - 1];
      MembersOf(fields) == MembersOf(front) + [Member(Said(last.key), JsonOf(last.tree))]
  {
  }

  lemma DictOfMore(members: seq<Member>, m: Member)
    ensures MeaningOfMembers(DictOf(members + [m])) == MeaningOfMembers(DictOf(members))[m.key := Meaning(m.value)]
  {
    assert (members + [m])[..|members|] == members;
    DictOfIsDict(members);
    AssignMeans(DictOf(members), m);
  }

  lemma {:induction false} FieldsMean(fields: seq<Field>)
    requires forall f | f in fields :: IsLegalField(f)
    ensures MeaningOfMembers(DictOf(MembersOf(fields))) == FieldsDenote(fields)
    decreases fields, 0
  {
    if fields != [] {
      var front, last := fields[..|fields| - 1], fields[|fields| - 1];
      assert last in fields;
      FieldsMean(front);
      TextMeans(last.tree);
      MembersOfFront(fields);
      DictOfMore(MembersOf(front), Member(Said(last.key), JsonOf(last.tree)));
    }
  }
}
