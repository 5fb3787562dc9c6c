/**
 Tool-call keys. The canonical text of an argument value identifies exactly the values that are equal when
 objects are compared as maps, and canonicalizing a canonical text changes nothing.
 */
module CanonicalArguments {
  import opened CanonicalJson
  import opened JsonTokens
  import opened JsonTexts

  // ---------------------------------------------------------------- printing and parsing back

  lemma HexIsDigit(n: nat)
    requires n < 16
    ensures IsHexDigit(Hex(n), n)
  {
  }

  /** An escape is a legal spelling of its character. */
  lemma EscapeIsSpelling(c: char) returns (p: Spelling)
    ensures IsSpelling(p) && p.c == c && Written(p) == EscapeChar(c)
  {
    if EscapeLetter(c) != '\0' {
      ShortParses(EscapeLetter(c), c);
      p := Short(EscapeLetter(c), c);
    } else if c < '\U{0020}' {
      var high, low := c as int / 16, c as int % 16;
      HexIsDigit(0);
      HexIsDigit(high);
      HexIsDigit(low);
      p := Unit(FourHex(['0', '0', Hex(high), Hex(low)], [0, 0, high, low]), c);
    } else {
      p := Plain(c);
    }
  }

  lemma {:induction false} EscapedIsWritten(text: string) returns (chars: seq<Spelling>)
    ensures AreSpellings(chars) && Said(chars) == text && WrittenAll(chars) == Escape(text)
  {
    if text == [] {
      chars := [];
    } else {
      var p := EscapeIsSpelling(text[0]);
      var others := EscapedIsWritten(text[1..]);
      chars := [p] + others;
      assert chars[1..] == others;
      assert text == [text[0]] + text[1..];
    }
  }

  lemma QuotedIsText(text: string) returns (chars: seq<Spelling>)
    ensures AreSpellings(chars) && Said(chars) == text && QuotedText(chars) == Quoted(text)
  {
    chars := EscapedIsWritten(text);
    Regroup("\"", Escape(text), "\"");
  }

  /** What is printed for a value is a legal text of it, without white space. */
  lemma {:induction false} PrintIsText(v: Json) returns (t: Tree)
    requires WellFormed(v)
    ensures IsLegal(t) && TextOf(t) == Print(v) && JsonOf(t) == v
    decreases v, 1
  {
    match v
    case Null => t := Word(v);
    case Bool(b) => t := Word(v);
    case Number(token) =>
      var n := NumberIsNumeral(token);
      t := Numerical(n);
    case Str(text) =>
      var chars := QuotedIsText(text);
      t := Quote(chars);
    case Array(items) =>
      var texts := PrintedItems(items);
      t := List("", texts);
      Regroup("[", PrintItems(items), "]");
    case Object(members) =>
      var fields := PrintedMembers(members);
      t := Dict("", fields);
      DictOfDistinct(members);
      Regroup("{", PrintMembers(members), "}");
  }

  lemma {:induction false} PrintedItems(items: seq<Json>) returns (texts: seq<Item>)
    requires forall item | item in items :: WellFormed(item)
    ensures (forall x | x in texts :: IsLegalItem(x)) && JsonsOf(texts) == items
    ensures if items == [] then texts == [] else texts != [] && ItemsText(texts) == PrintItems(items)
    decreases items, 0
  {
    texts := [];
    if items != [] {
      var t := PrintIsText(items[0]);
      var others := PrintedItems(items[1..]);
      var x := Item("", t, "");
      assert ItemText(x) == Print(items[0]);
      texts := [x] + others;
      assert texts[1..] == others && items == [items[0]] + items[1..];
      Regroup(Print(items[0]), ",", PrintItems(items[1..]));
    }
  }

  lemma NothingAround(s: string)
    ensures "" + s == s && s + "" == s
  {
  }

  lemma NoBlanks(key: string, text: string)
    ensures "" + (key + ("" + (":" + ("" + (text + ""))))) == key + ":" + text
  {
    NothingAround(text);
    NothingAround(":" + text);
    NothingAround(key + (":" + text));
    Regroup(key, ":", text);
  }

  lemma PrintedField(m: Member, key: seq<Spelling>, t: Tree) returns (f: Field)
    requires AreSpellings(key) && QuotedText(key) == Quoted(m.key) && Said(key) == m.key
    requires IsLegal(t) && TextOf(t) == Print(m.value) && JsonOf(t) == m.value
    ensures IsLegalField(f) && FieldText(f) == Quoted(m.key) + ":" + Print(m.value)
    ensures Member(Said(f.key), JsonOf(f.tree)) == m
  {
    f := Field("", key, "", "", t, "");
    NoBlanks(Quoted(m.key), Print(m.value));
  }

  lemma {:induction false} PrintedMembers(members: seq<Member>) returns (fields: seq<Field>)
    requires forall m | m in members :: WellFormed(m.value)
    ensures (forall f | f in fields :: IsLegalField(f)) && MembersOf(fields) == members
    ensures if members == [] then fields == [] else fields != [] && FieldsText(fields) == PrintMembers(members)
    decreases members, 0
  {
    fields := [];
    if members != [] {
      var key := QuotedIsText(members[0].key);
      var t := PrintIsText(members[0].value);
      var f := PrintedField(members[0], key, t);
      var others := PrintedMembers(members[1..]);
      fields := [f] + others;
      assert fields[1..] == others && members == [members[0]] + members[1..];
      Regroup(FieldText(f), ",", PrintMembers(members[1..]));
    }
  }

  lemma {:induction false} DictOfDistinct(members: seq<Member>)
    requires DistinctKeys(members)
    ensures DictOf(members) == members
  {
    if members != [] {
      var front, last := members[..|members| - 1], members[|members| - 1];
      DictOfDistinct(front);
      AssignNew(front, last);
      assert members == front + [last];
    }
  }

  lemma {:induction false} AssignNew(members: seq<Member>, m: Member)
    requires forall i | 0 <= i < |members| :: members[i].key != m.key
    ensures Assign(members, m) == members + [m]
  {
    if members != [] {
      AssignNew(members[1..], m);
    }
  }

  /** Printing and parsing give back the value, with the members of its objects in their order. */
  lemma PrintRoundTrip(v: Json)
    requires WellFormed(v)
    ensures Parse(Print(v)) == Got(v, [])
  {
    var t := PrintIsText(v);
    TextIsAccepted(Item("", t, ""));
    assert ItemText(Item("", t, "")) == Print(v);
  }

  // ---------------------------------------------------------------- sorting

  /** Code-point order. */
  predicate Before(a: string, b: string) {
    if b == [] then false
    else if a == [] then true
    else a[0] < b[0] || (a[0] == b[0] && Before(a[1..], b[1..]))
  }

  lemma {:induction false} BeforeIsStrict(a: string, b: string)
    ensures !(Before(a, b) && Before(b, a))
    ensures !Before(a, a)
    ensures a != b ==> Before(a, b) || Before(b, a)
    decreases |a|
  {
    if a != [] {
      BeforeIsStrict(a[1..], a[1..]);
      if b != [] {
        BeforeIsStrict(a[1..], b[1..]);
        assert a == [a[0]] + a[1..] && b == [b[0]] + b[1..];
      }
    }
  }

  lemma {:induction false} BeforeIsTransitive(a: string, b: string, c: string)
    requires Before(a, b) && Before(b, c)
    ensures Before(a, c)
  {
    if a != [] && a[0] == b[0] == c[0] {
      BeforeIsTransitive(a[1..], b[1..], c[1..]);
    }
  }

  ghost predicate SortedKeys(members: seq<Member>) {
    forall i, j | 0 <= i < j < |members| :: Before(members[i].key, members[j].key)
  }

  function Insert(m: Member, members: seq<Member>): seq<Member> {
    if members == [] || Before(m.key, members[0].key) then [m] + members
    else [members[0]] + Insert(m, members[1..])
  }

  function SortByKey(members: seq<Member>): seq<Member> {
    if members == [] then [] else Insert(members[0], SortByKey(members[1..]))
  }

  lemma {:induction false} InsertSorts(m: Member, members: seq<Member>)
    requires SortedKeys(members) && forall x | x in members :: x.key != m.key
    ensures SortedKeys(Insert(m, members))
    ensures forall x :: x in Insert(m, members) <==> x == m || x in members
  {
    if members != [] {
      assert members == [members[0]] + members[1..];
      BeforeIsStrict(m.key, members[0].key);
      if Before(m.key, members[0].key) {
        forall i | 0 < i < |members| ensures Before(m.key, members[i].key) {
          BeforeIsTransitive(m.key, members[0].key, members[i].key);
        }
      } else {
        InsertSorts(m, members[1..]);
        var rest := Insert(m, members[1..]);
        forall i | 0 <= i < |rest| ensures Before(members[0].key, rest[i].key) {
          assert rest[i] in rest;
        }
      }
    }
  }

  lemma {:induction false} SortByKeySorts(members: seq<Member>)
    requires DistinctKeys(members)
    ensures SortedKeys(SortByKey(members)) && DistinctKeys(SortByKey(members))
    ensures forall x :: x in SortByKey(members) <==> x in members
  {
    if members != [] {
      assert members == [members[0]] + members[1..];
      SortByKeySorts(members[1..]);
      forall x | x in members[1..] ensures x.key != members[0].key {
        var i :| 0 <= i < |members[1..]| && members[1..][i] == x;
        assert members[i + 1] == x;
      }
      InsertSorts(members[0], SortByKey(members[1..]));
    }
    forall i, j | 0 <= i < j < |SortByKey(members)| ensures SortByKey(members)[i].key != SortByKey(members)[j].key {
      BeforeIsStrict(SortByKey(members)[i].key, SortByKey(members)[j].key);
    }
  }

  lemma HasElement(members: seq<Member>)
    ensures members != [] ==> exists x :: x in members
  {
    if members != [] {
      assert members[0] in members;
    }
  }

  /** A sorted listing is determined by its elements. */
  lemma {:induction false} SortedIsUnique(a: seq<Member>, b: seq<Member>)
    requires SortedKeys(a) && SortedKeys(b) && forall x :: x in a <==> x in b
    ensures a == b
  {
    HasElement(b);
    if a != [] {
      assert a[0] in b && a == [a[0]] + a[1..];
      assert b[0] in a && b == [b[0]] + b[1..];
      BeforeIsStrict(a[0].key, b[0].key);
      var i :| 0 <= i < |b| && b[i] == a[0];
      var j :| 0 <= j < |a| && a[j] == b[0];
      assert a[0] == b[0];
      forall x ensures x in a[1..] <==> x in b[1..] {
        BeforeIsStrict(a[0].key, a[0].key);
        if x in a[1..] { var k :| 0 <= k < |a[1..]| && a[1..][k] == x; assert a[k + 1] == x; assert x in b; }
        if x in b[1..] { var k :| 0 <= k < |b[1..]| && b[1..][k] == x; assert b[k + 1] == x; assert x in a; }
      }
      SortedIsUnique(a[1..], b[1..]);
    }
  }

  function SortJson(v: Json): Json
    decreases v
  {
    match v
    case Array(items) => Array(SortItems(items))
    case Object(members) => Object(SortByKey(SortMembers(members)))
    case _ => v
  }

  function SortItems(items: seq<Json>): (r: seq<Json>)
    ensures |r| == |items|
    ensures forall i | 0 <= i < |items| :: r[i] == SortJson(items[i])
    decreases items
  {
    if items == [] then [] else [SortJson(items[0])] + SortItems(items[1..])
  }

  function SortMembers(members: seq<Member>): (r: seq<Member>)
    ensures |r| == |members|
    ensures forall i | 0 <= i < |members| :: r[i] == Member(members[i].key, SortJson(members[i].value))
    decreases members
  {
    if members == [] then [] else [Member(members[0].key, SortJson(members[0].value))] + SortMembers(members[1..])
  }

  function Canonical(v: Json): string {
    Print(SortJson(v))
  }

  // ---------------------------------------------------------------- equality of values

  /** `b` has a member with the key of `m` and a value that means the same. */
  ghost predicate HasLike(b: seq<Member>, m: Member) {
    exists j | 0 <= j < |b| :: b[j].key == m.key && Meaning(b[j].value) == Meaning(m.value)
  }

  ghost predicate Covers(b: seq<Member>, a: seq<Member>) {
    forall i | 0 <= i < |a| :: HasLike(b, a[i])
  }

  /** Objects that mean the same agree in their members up to order. */
  lemma SameMeaningCovers(a: seq<Member>, b: seq<Member>)
    requires DistinctKeys(a) && DistinctKeys(b) && MeaningOfMembers(a) == MeaningOfMembers(b)
    ensures Covers(b, a)
  {
    forall i | 0 <= i < |a| ensures HasLike(b, a[i]) {
      MeaningAt(a, i);
      assert a[i].key in MeaningOfMembers(a);
      var j :| 0 <= j < |b| && b[j].key == a[i].key;
      MeaningAt(b, j);
    }
  }

  lemma CoversSameMeaning(a: seq<Member>, b: seq<Member>)
    requires DistinctKeys(a) && DistinctKeys(b) && Covers(b, a) && Covers(a, b)
    ensures MeaningOfMembers(a) == MeaningOfMembers(b)
  {
    CoveredKeys(a, b);
    CoveredKeys(b, a);
    forall k | k in MeaningOfMembers(a) ensures MeaningOfMembers(b)[k] == MeaningOfMembers(a)[k] {
      var i :| 0 <= i < |a| && a[i].key == k;
      CoveredMeaning(a, b, i);
    }
    SameMaps(MeaningOfMembers(a), MeaningOfMembers(b));
  }

  lemma SameMaps<K, V>(a: map<K, V>, b: map<K, V>)
    requires forall k | k in a :: k in b && b[k] == a[k]
    requires forall k | k in b :: k in a
    ensures a == b
  {
  }

  lemma CoveredMeaning(a: seq<Member>, b: seq<Member>, i: nat)
    requires DistinctKeys(a) && DistinctKeys(b) && Covers(b, a) && i < |a|
    ensures a[i].key in MeaningOfMembers(b)
    ensures MeaningOfMembers(b)[a[i].key] == MeaningOfMembers(a)[a[i].key]
  {
    assert HasLike(b, a[i]);
    var j :| 0 <= j < |b| && b[j].key == a[i].key && Meaning(b[j].value) == Meaning(a[i].value);
    MeaningAt(a, i);
    MeaningAt(b, j);
  }

  lemma CoveredKeys(a: seq<Member>, b: seq<Member>)
    requires Covers(b, a)
    ensures forall k | k in MeaningOfMembers(a) :: k in MeaningOfMembers(b)
  {
    forall k | k in MeaningOfMembers(a) ensures k in MeaningOfMembers(b) {
      var i :| 0 <= i < |a| && a[i].key == k;
      assert HasLike(b, a[i]);
    }
  }

  /** Sorting keeps a value well formed and keeps its meaning. */
  lemma {:induction false} SortKeepsMeaning(v: Json)
    requires WellFormed(v)
    ensures WellFormed(SortJson(v)) && Meaning(SortJson(v)) == Meaning(v)
    decreases v
  {
    match v
    case Array(items) =>
      forall i | 0 <= i < |items| ensures WellFormed(SortJson(items[i])) && Meaning(SortJson(items[i])) == Meaning(items[i]) {
        SortKeepsMeaning(items[i]);
      }
      assert MeaningOfItems(SortItems(items)) == MeaningOfItems(items);
    case Object(members) =>
      forall i | 0 <= i < |members|
        ensures WellFormed(SortJson(members[i].value)) && Meaning(SortJson(members[i].value)) == Meaning(members[i].value)
      {
        SortKeepsMeaning(members[i].value);
      }
      SortedMembersMeanTheSame(members);
    case _ =>
  }

  lemma SortingCovers(members: seq<Member>)
    requires DistinctKeys(members)
    requires forall i | 0 <= i < |members| ::
      WellFormed(SortJson(members[i].value)) && Meaning(SortJson(members[i].value)) == Meaning(members[i].value)
    ensures var sorted := SortByKey(SortMembers(members));
      DistinctKeys(sorted) && (forall m | m in sorted :: WellFormed(m.value)) && Covers(members, sorted)
  {
    var mapped := SortMembers(members);
    var sorted := SortByKey(mapped);
    SortByKeySorts(mapped);
    forall i | 0 <= i < |sorted| ensures WellFormed(sorted[i].value) && HasLike(members, sorted[i]) {
      assert sorted[i] in mapped;
      var j :| 0 <= j < |mapped| && mapped[j] == sorted[i];
    }
  }

  lemma SortingIsCovered(members: seq<Member>)
    requires DistinctKeys(members)
    requires forall i | 0 <= i < |members| :: Meaning(SortJson(members[i].value)) == Meaning(members[i].value)
    ensures Covers(SortByKey(SortMembers(members)), members)
  {
    var mapped := SortMembers(members);
    var sorted := SortByKey(mapped);
    SortByKeySorts(mapped);
    forall i | 0 <= i < |members| ensures HasLike(sorted, members[i]) {
      assert mapped[i] in sorted;
      var j :| 0 <= j < |sorted| && sorted[j] == mapped[i];
    }
  }

  lemma SortedMembersMeanTheSame(members: seq<Member>)
    requires DistinctKeys(members)
    requires forall i | 0 <= i < |members| ::
      WellFormed(SortJson(members[i].value)) && Meaning(SortJson(members[i].value)) == Meaning(members[i].value)
    ensures var sorted := SortByKey(SortMembers(members));
      && DistinctKeys(sorted) && (forall m | m in sorted :: WellFormed(m.value))
      && MeaningOfMembers(sorted) == MeaningOfMembers(members)
  {
    SortingCovers(members);
    SortingIsCovered(members);
    CoversSameMeaning(SortByKey(SortMembers(members)), members);
  }

  /** Values that mean the same have the same sorted form. */
  lemma {:induction false} SameMeaningSortsAlike(v: Json, w: Json)
    requires WellFormed(v) && WellFormed(w) && Meaning(v) == Meaning(w)
    ensures SortJson(v) == SortJson(w)
    decreases v
  {
    match v
    case Array(items) =>
      forall i | 0 <= i < |items| ensures SortJson(items[i]) == SortJson(w.items[i]) {
        assert MeaningOfItems(items)[i] == MeaningOfItems(w.items)[i];
        SameMeaningSortsAlike(items[i], w.items[i]);
      }
      assert SortItems(items) == SortItems(w.items);
    case Object(members) =>
      SameMeaningCovers(members, w.members);
      SameMeaningCovers(w.members, members);
      MembersSortAlike(members, w.members);
    case _ =>
  }

  lemma {:induction false} MembersSortAlike(a: seq<Member>, b: seq<Member>)
    requires DistinctKeys(a) && DistinctKeys(b) && Covers(b, a) && Covers(a, b)
    requires (forall m | m in a :: WellFormed(m.value)) && (forall n | n in b :: WellFormed(n.value))
    ensures SortByKey(SortMembers(a)) == SortByKey(SortMembers(b))
    decreases a, 0
  {
    var sa, sb := SortMembers(a), SortMembers(b);
    SortsInto(a, b);
    SortsOnto(a, b);
    SortByKeySorts(sa);
    SortByKeySorts(sb);
    SortedIsUnique(SortByKey(sa), SortByKey(sb));
  }

  lemma {:induction false} SortsInto(a: seq<Member>, b: seq<Member>)
    requires Covers(b, a)
    requires (forall m | m in a :: WellFormed(m.value)) && (forall n | n in b :: WellFormed(n.value))
    ensures forall x | x in SortMembers(a) :: x in SortMembers(b)
    decreases a, -1
  {
    var sa, sb := SortMembers(a), SortMembers(b);
    forall x | x in sa ensures x in sb {
      var i :| 0 <= i < |sa| && sa[i] == x;
      assert HasLike(b, a[i]);
      var j :| 0 <= j < |b| && b[j].key == a[i].key && Meaning(b[j].value) == Meaning(a[i].value);
      SameMeaningSortsAlike(a[i].value, b[j].value);
      assert sb[j] == x;
    }
  }

  lemma {:induction false} SortsOnto(a: seq<Member>, b: seq<Member>)
    requires Covers(a, b)
    requires (forall m | m in a :: WellFormed(m.value)) && (forall n | n in b :: WellFormed(n.value))
    ensures forall x | x in SortMembers(b) :: x in SortMembers(a)
    decreases a, -1
  {
    var sa, sb := SortMembers(a), SortMembers(b);
    forall x | x in sb ensures x in sa {
      var j :| 0 <= j < |sb| && sb[j] == x;
      assert HasLike(a, b[j]);
      var i :| 0 <= i < |a| && a[i].key == b[j].key && Meaning(a[i].value) == Meaning(b[j].value);
      SameMeaningSortsAlike(a[i].value, b[j].value);
      assert sa[i] == x;
    }
  }

  // ---------------------------------------------------------------- main results

  /** Two argument values have the same canonical text exactly when they are equal with objects taken as maps. */
  lemma CanonicalIffEqual(v: Json, w: Json)
    requires WellFormed(v) && WellFormed(w)
    ensures Canonical(v) == Canonical(w) <==> Meaning(v) == Meaning(w)
  {
    SortKeepsMeaning(v);
    SortKeepsMeaning(w);
    PrintRoundTrip(SortJson(v));
    PrintRoundTrip(SortJson(w));
    if Meaning(v) == Meaning(w) {
      SameMeaningSortsAlike(v, w);
    }
  }

  /** The canonical form of an argument text; texts that are not JSON stay as they are. */
  function CanonicalText(arguments: string): string {
    match Parse(arguments)
    case Fail => arguments
    case Got(v, _) => Canonical(v)
  }

  type CallKey = (string, string)

  function CallKeyOf(toolName: string, arguments: string): CallKey {
    (toolName, CanonicalText(arguments))
  }

  /** Canonicalizing again changes nothing, for every text. */
  lemma CanonicalTextIsStable(arguments: string)
    ensures CanonicalText(CanonicalText(arguments)) == CanonicalText(arguments)
  {
    match Parse(arguments)
    case Fail =>
    case Got(v, _) =>
      SortKeepsMeaning(v);
      PrintRoundTrip(SortJson(v));
      CanonicalIffEqual(SortJson(v), v);
  }

  /** Two JSON argument texts get the same key exactly when tool and argument value are the same. */
  lemma CallKeysIdentifyCalls(tool: string, arguments: string, tool': string, arguments': string)
    requires Parse(arguments).Got? && Parse(arguments').Got?
    ensures CallKeyOf(tool, arguments) == CallKeyOf(tool', arguments') <==>
      tool == tool' && Meaning(Parse(arguments).value) == Meaning(Parse(arguments').value)
  {
    CanonicalIffEqual(Parse(arguments).value, Parse(arguments').value);
  }

  /** Any two spellings of argument values get the same key exactly when the tool is the same and the values are equal. */
  lemma SpellingsShareAKey(tool: string, x: Item, tool': string, y: Item)
    requires IsLegalItem(x) && IsLegalItem(y)
    ensures CallKeyOf(tool, ItemText(x)) == CallKeyOf(tool', ItemText(y)) <==>
      tool == tool' && Denotes(x.tree) == Denotes(y.tree)
  {
    TextIsAccepted(x);
    TextIsAccepted(y);
    TextMeans(x.tree);
    TextMeans(y.tree);
    CallKeysIdentifyCalls(tool, ItemText(x), tool', ItemText(y));
  }
}
