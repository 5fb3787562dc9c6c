/** Compaction of a history: a prefix is summarised by the model, the last messages are kept. */
module Compaction {
  import opened Wrappers
  import opened Text
  import opened Messages

  predicate IsTurnMessage(m: Message) {
    m.role == User || m.role == Assistant
  }

  /** `prompt` below is the closing instruction, custom focus included, that ends the compaction input. */

  /** `input` is the message sent to the summarising model, or `None` when nothing is compacted. */
  datatype Prepared = Prepared(input: Option<Message>, preserve: seq<Message>)

  function RoleName(role: Role): string {
    match role
    case System => "system"
    case User => "user"
    case Assistant => "assistant"
    case Tool => "tool"
  }

  function TextParts(content: seq<Part>): seq<Part> {
    if content == [] then []
    else TextParts(content[..|content| - 1]) + if content[|content| - 1].TextPart? then [content[|content| - 1]] else []
  }

  function Heading(number: nat, role: Role): Part {
    TextPart("## Message " + Decimal(number) + "\nRole: " + RoleName(role) + "\nContent:\n")
  }

  function InputContent(messages: seq<Message>): seq<Part> {
    if messages == [] then []
    else
      var last := messages[|messages| - 1];
      InputContent(messages[..|messages| - 1]) + [Heading(|messages|, last.role)] + TextParts(last.content)
  }

  function TurnMessages(messages: seq<Message>): nat {
    if messages == [] then 0
    else TurnMessages(messages[1..]) + if IsTurnMessage(messages[0]) then 1 else 0
  }

  /** Where the last `n` user and assistant messages begin, if there are that many. */
  function PreserveStart(messages: seq<Message>, n: int): Option<nat> {
    if messages == [] || n <= 0 then None
    else
      var last := |messages| - 1;
      if !IsTurnMessage(messages[last]) then PreserveStart(messages[..last], n)
      else if n == 1 then Some(last)
      else PreserveStart(messages[..last], n - 1)
  }

  function Prepare(messages: seq<Message>, maxPreserved: int, prompt: string): Prepared {
    match PreserveStart(messages, maxPreserved)
    case None => Prepared(None, messages)
    case Some(start) =>
      if start == 0 || start > |messages| then Prepared(None, messages)
      else Prepared(
        Some(PlainMessage(User, InputContent(messages[..start]) + [TextPart(prompt)])),
        messages[start..])
  }

  lemma {:induction false} TurnMessagesConcat(a: seq<Message>, b: seq<Message>)
    ensures TurnMessages(a + b) == TurnMessages(a) + TurnMessages(b)
  {
    if a == [] {
      assert a + b == b;
    } else {
      TurnMessagesConcat(a[1..], b);
      assert (a + b)[1..] == a[1..] + b;
    }
  }

  /** The preserved suffix starts at a user or assistant message and holds exactly `n` of them. */
  lemma {:induction false} PreserveStartSplits(messages: seq<Message>, n: int)
    requires n > 0
    ensures PreserveStart(messages, n).Some? <==> TurnMessages(messages) >= n
    ensures PreserveStart(messages, n).Some? ==>
      var start := PreserveStart(messages, n).value;
      start < |messages| && IsTurnMessage(messages[start]) && TurnMessages(messages[start..]) == n
  {
    if messages != [] {
      var last := |messages| - 1;
      var front, tail := messages[..last], [messages[last]];
      assert messages == front + tail;
      TurnMessagesConcat(front, tail);
      assert tail[1..] == [];
      if IsTurnMessage(messages[last]) && n == 1 {
        assert messages[last..] == tail;
      } else {
        var m := if IsTurnMessage(messages[last]) then n - 1 else n;
        PreserveStartSplits(front, m);
        if PreserveStart(front, m).Some? {
          var start := PreserveStart(front, m).value;
          assert messages[start..] == front[start..] + tail;
          TurnMessagesConcat(front[start..], tail);
        }
      }
    }
  }

  method BuildInput(messages: seq<Message>) returns (content: seq<Part>)
    ensures content == InputContent(messages)
  {
    content := [];
    for i := 0 to |messages|
      invariant content == InputContent(messages[..i])
    {
      assert messages[..i + 1][..i] == messages[..i];
      var message := messages[i];
      content := content + [Heading(i + 1, message.role)];
      ghost var headed := content;
      for j := 0 to |message.content|
        invariant content == headed + TextParts(message.content[..j])
      {
        assert message.content[..j + 1][..j] == message.content[..j];
        if message.content[j].TextPart? {
          content := content + [message.content[j]];
        }
      }
      assert message.content[..|message.content|] == message.content;
    }
    assert messages[..|messages|] == messages;
  }

  class SimpleCompaction {
    const maxPreserved: int

    constructor (maxPreserved: int)
      ensures this.maxPreserved == maxPreserved
    {
      this.maxPreserved := maxPreserved;
    }

    method PrepareInput(messages: seq<Message>, prompt: string) returns (r: Prepared)
      ensures r == Prepare(messages, maxPreserved, prompt)
    {
      if messages == [] || maxPreserved <= 0 {
        return Prepared(None, messages);
      }
      PreserveStartSplits(messages, maxPreserved);
      assert messages[..|messages|] == messages;
      var start, preserved, index := |messages|, 0, |messages|;
      while index > 0 && preserved < maxPreserved
        invariant 0 <= index <= |messages| && 0 <= preserved <= maxPreserved
        invariant preserved < maxPreserved ==>
          PreserveStart(messages, maxPreserved) == PreserveStart(messages[..index], maxPreserved - preserved)
        invariant preserved == maxPreserved ==> PreserveStart(messages, maxPreserved) == Some(start)
      {
        index := index - 1;
        assert messages[..index + 1][..index] == messages[..index];
        if IsTurnMessage(messages[index]) {
          preserved := preserved + 1;
          if preserved == maxPreserved {
            start := index;
          }
        }
      }
      if preserved < maxPreserved {
        return Prepared(None, messages);
      }
      var toCompact, preserve := messages[..start], messages[start..];
      if toCompact == [] {
        assert preserve == messages;
        return Prepared(None, preserve);
      }
      var content := BuildInput(toCompact);
      return Prepared(Some(PlainMessage(User, content + [TextPart(prompt)])), preserve);
    }

    /** `summary` is the message the model returned; it is used only when something is compacted. */
    method Compact(messages: seq<Message>, prompt: string, summary: Message)
      returns (result: seq<Message>)
      ensures result == Compacted(messages, maxPreserved, prompt, summary)
    {
      var prepared := PrepareInput(messages, prompt);
      if prepared.input.None? {
        return prepared.preserve;
      }
      var spoken := DropThinking(summary.content);
      return [PlainMessage(User, [SystemText(OUTPUT_PREFIX)] + spoken)] + prepared.preserve;
    }
  }

  method DropThinking(content: seq<Part>) returns (spoken: seq<Part>)
    ensures spoken == WithoutThinking(content)
  {
    spoken := [];
    for i := 0 to |content|
      invariant spoken == WithoutThinking(content[..i])
    {
      assert content[..i + 1][..i] == content[..i];
      if !content[i].ThinkPart? {
        spoken := spoken + [content[i]];
      }
    }
    assert content[..|content|] == content;
  }

  const OUTPUT_PREFIX := "Previous context has been compacted. Here is the compaction output:"

  function WithoutThinking(content: seq<Part>): (r: seq<Part>)
    ensures forall p | p in r :: !p.ThinkPart? && p in content
  {
    if content == [] then []
    else
      var last := content[|content| - 1];
      WithoutThinking(content[..|content| - 1]) + if last.ThinkPart? then [] else [last]
  }

  function Compacted(messages: seq<Message>, maxPreserved: int, prompt: string, summary: Message)
    : seq<Message>
  {
    var prepared := Prepare(messages, maxPreserved, prompt);
    if prepared.input.None? then messages
    else [PlainMessage(User, [SystemText(OUTPUT_PREFIX)] + WithoutThinking(summary.content))] + prepared.preserve
  }

  /** A message that requests the call `id`. */
  predicate Requests(m: Message, id: Option<string>) {
    m.role == Assistant && id.Some? && id.value in m.toolCallIds
  }

  /** Message `i` is a tool result whose call is requested by the assistant message right before its run. */
  ghost predicate Answered(messages: seq<Message>, i: nat)
    requires i < |messages|
  {
    exists j | 0 <= j < i ::
      Requests(messages[j], messages[i].toolCallId) && forall k | j < k < i :: messages[k].role == Tool
  }

  /** No tool result is an orphan. */
  ghost predicate Linked(messages: seq<Message>) {
    forall i | 0 <= i < |messages| && messages[i].role == Tool :: Answered(messages, i)
  }

  /** A suffix of a linked history that starts at a user or assistant message is linked. */
  lemma SuffixLinked(messages: seq<Message>, start: nat)
    requires Linked(messages) && start < |messages| && IsTurnMessage(messages[start])
    ensures Linked(messages[start..])
  {
    var suffix := messages[start..];
    forall i | 0 <= i < |suffix| && suffix[i].role == Tool ensures Answered(suffix, i) {
      assert Answered(messages, start + i);
      var j :| 0 <= j < start + i && Requests(messages[j], messages[start + i].toolCallId)
        && forall k | j < k < start + i :: messages[k].role == Tool;
      assert j >= start;
      assert suffix[j - start] == messages[j];
      assert forall k | j - start < k < i :: suffix[k] == messages[start + k];
    }
  }

  lemma PrefixedLinked(first: Message, rest: seq<Message>)
    requires Linked(rest) && first.role != Tool
    ensures Linked([first] + rest)
  {
    var all := [first] + rest;
    forall i | 0 <= i < |all| && all[i].role == Tool ensures Answered(all, i) {
      assert Answered(rest, i - 1);
      var j :| 0 <= j < i - 1 && Requests(rest[j], rest[i - 1].toolCallId)
        && forall k | j < k < i - 1 :: rest[k].role == Tool;
      assert all[j + 1] == rest[j];
      assert forall k | j + 1 < k < i :: all[k] == rest[k - 1];
    }
  }

  /** The cut in front of the preserved suffix: something precedes it and it has the required shape. */
  ghost predicate IsCut(messages: seq<Message>, maxPreserved: int, cut: int) {
    0 < cut < |messages| && IsTurnMessage(messages[cut]) && TurnMessages(messages[cut..]) == maxPreserved
  }

  lemma EarlierSuffixCountsMore(messages: seq<Message>, i: nat, j: nat)
    requires i < j <= |messages| && IsTurnMessage(messages[i])
    ensures TurnMessages(messages[i..]) > TurnMessages(messages[j..])
  {
    assert messages[i..] == [messages[i]] + (messages[i + 1..j] + messages[j..]);
    TurnMessagesConcat([messages[i]], messages[i + 1..j] + messages[j..]);
    TurnMessagesConcat(messages[i + 1..j], messages[j..]);
  }

  lemma CutIsUnique(messages: seq<Message>, maxPreserved: int, cut: int)
    requires maxPreserved > 0 && IsCut(messages, maxPreserved, cut)
    ensures PreserveStart(messages, maxPreserved) == Some(cut)
  {
    assert messages == messages[..cut] + messages[cut..];
    TurnMessagesConcat(messages[..cut], messages[cut..]);
    PreserveStartSplits(messages, maxPreserved);
    var start := PreserveStart(messages, maxPreserved).value;
    if start < cut {
      EarlierSuffixCountsMore(messages, start, cut);
    } else if cut < start {
      EarlierSuffixCountsMore(messages, cut, start);
    }
  }

  /** Compaction happens exactly when something precedes the last `maxPreserved` user and assistant messages. */
  lemma CompactionHappens(messages: seq<Message>, maxPreserved: int, prompt: string)
    ensures Prepare(messages, maxPreserved, prompt).input.Some?
       <==> maxPreserved > 0 && exists cut :: IsCut(messages, maxPreserved, cut)
  {
    if maxPreserved > 0 {
      PreserveStartSplits(messages, maxPreserved);
      forall cut | IsCut(messages, maxPreserved, cut) ensures PreserveStart(messages, maxPreserved) == Some(cut) {
        CutIsUnique(messages, maxPreserved, cut);
      }
      var start := PreserveStart(messages, maxPreserved);
      if start.Some? && start.value > 0 {
        assert IsCut(messages, maxPreserved, start.value);
      }
    }
  }

  /**
   When it happens, the history is split into the compacted prefix and a suffix that starts at a user or
   assistant message and holds exactly `maxPreserved` of them; when not, the history is kept as it was.
   */
  lemma PreparedSplitsHistory(messages: seq<Message>, maxPreserved: int, prompt: string)
    ensures var prepared := Prepare(messages, maxPreserved, prompt);
      var cut := |messages| - |prepared.preserve|;
      if prepared.input.None? then prepared.preserve == messages
      else
        && maxPreserved > 0 && IsCut(messages, maxPreserved, cut)
        && messages == messages[..cut] + prepared.preserve
        && prepared.input.value.content
           == InputContent(messages[..cut]) + [TextPart(prompt)]
  {
    if maxPreserved > 0 {
      PreserveStartSplits(messages, maxPreserved);
    }
  }

  /**
   The result is never longer than the history, carries no thinking of the model in front of the preserved
   suffix, and has no orphan tool result if the history had none.
   */
  lemma CompactedKeepsStructure(
      messages: seq<Message>, maxPreserved: int, prompt: string, summary: Message)
    ensures var prepared := Prepare(messages, maxPreserved, prompt);
      var result := Compacted(messages, maxPreserved, prompt, summary);
      && |result| <= |messages|
      && (prepared.input.Some? ==>
            && |result| > 0 && result[1..] == prepared.preserve && result[0].role == User
            && forall p | p in result[0].content :: !p.ThinkPart?)
      && (Linked(messages) ==> Linked(result))
  {
    PreparedSplitsHistory(messages, maxPreserved, prompt);
    var prepared := Prepare(messages, maxPreserved, prompt);
    if prepared.input.Some? && Linked(messages) {
      var cut := |messages| - |prepared.preserve|;
      assert prepared.preserve == messages[cut..];
      SuffixLinked(messages, cut);
      PrefixedLinked(Compacted(messages, maxPreserved, prompt, summary)[0], prepared.preserve);
    }
  }

  /** The messages that count are those of the user and the assistant. */
  lemma {:induction false} TurnMessagesCount(messages: seq<Message>) returns (places: seq<nat>)
    ensures |places| == TurnMessages(messages)
    ensures forall i, j | 0 <= i < j < |places| :: places[i] < places[j]
    ensures forall j :: j in places <==> 0 <= j < |messages| && (messages[j].role == User || messages[j].role == Assistant)
  {
    if messages == [] {
      places := [];
    } else {
      var later := TurnMessagesCount(messages[1..]);
      var shifted := seq(|later|, i requires 0 <= i < |later| => later[i] + 1);
      places := (if messages[0].role == User || messages[0].role == Assistant then [0] else []) + shifted;
      forall j ensures j in shifted <==> j > 0 && j - 1 in later {
        if j > 0 && j - 1 in later {
          var i :| 0 <= i < |later| && later[i] == j - 1;
          assert shifted[i] == j;
        }
      }
    }
  }

  lemma TextInOneMore(content: seq<Part>, last: Part)
    ensures TextIn(content + [last]) == TextIn(content) + if last.TextPart? then last.text else ""
    ensures TextParts(content + [last]) == TextParts(content) + if last.TextPart? then [last] else []
  {
    assert (content + [last])[..|content|] == content;
  }

  /** Concatenated, the texts are what the text parts say: nothing else is read, nothing is lost. */
  lemma {:induction false} TextPartsAreTheTexts(content: seq<Part>)
    ensures forall p | p in TextParts(content) :: p.TextPart?
    ensures TextIn(TextParts(content)) == TextIn(content)
  {
    if content != [] {
      var front, last := content[..|content| - 1], content[|content| - 1];
      TextPartsAreTheTexts(front);
      assert content == front + [last];
      TextInOneMore(front, last);
      TextInOneMore(TextParts(front), last);
      assert TextParts(front) + [] == TextParts(front);
    }
  }

  /** How the input announces a message. */
  predicate Announces(p: Part, number: nat, role: Role) {
    && p.TextPart?
    && p.text == "## Message " + Decimal(number) + "\nRole: "
                 + (if role == User then "user" else if role == Assistant then "assistant"
                    else if role == Tool then "tool" else "system")
                 + "\nContent:\n"
  }

  /** From `start` to `end` the content announces message `number` and then holds its texts. */
  predicate IsSection(content: seq<Part>, start: nat, end: nat, number: nat, m: Message) {
    && start < end <= |content| && Announces(content[start], number, m.role)
    && content[start + 1..end] == TextParts(m.content)
  }

  lemma SectionStays(content: seq<Part>, more: seq<Part>, start: nat, end: nat, number: nat, m: Message)
    requires IsSection(content, start, end, number, m)
    ensures IsSection(content + more, start, end, number, m)
  {
    assert (content + more)[start + 1..end] == content[start + 1..end];
  }

  lemma SectionIsAdded(before: seq<Part>, number: nat, m: Message)
    ensures var all := before + [Heading(number, m.role)] + TextParts(m.content);
      IsSection(all, |before|, |all|, number, m) && before <= all
  {
  }

  ghost predicate AreSections(content: seq<Part>, starts: seq<nat>, messages: seq<Message>) {
    && |starts| == |messages| + 1 && starts[0] == 0 && starts[|messages|] == |content|
    && forall i, j | 0 <= i < |messages| && j == i + 1 :: IsSection(content, starts[i], starts[j], j, messages[i])
  }

  lemma OneMoreSection(content: seq<Part>, starts: seq<nat>, messages: seq<Message>, m: Message, all: seq<Part>)
    requires AreSections(content, starts, messages) && content <= all
    requires IsSection(all, |content|, |all|, |messages| + 1, m)
    ensures AreSections(all, starts + [|all|], messages + [m])
  {
    var longer, more := starts + [|all|], messages + [m];
    forall i, j | 0 <= i < |more| && j == i + 1 ensures IsSection(all, longer[i], longer[j], j, more[i]) {
      if i < |messages| {
        SectionStays(content, all[|content|..], starts[i], starts[j], j, messages[i]);
        assert content + all[|content|..] == all;
      }
    }
  }

  /** The input is one section for each message in order: its announcement with its number and role, then its texts. */
  lemma {:induction false} InputIsInSections(messages: seq<Message>) returns (starts: seq<nat>)
    ensures AreSections(InputContent(messages), starts, messages)
  {
    if messages == [] {
      starts := [0];
    } else {
      var front, last := messages[..|messages| - 1], messages[|messages| - 1];
      var before := InputIsInSections(front);
      starts := before + [|InputContent(messages)|];
      SectionIsAdded(InputContent(front), |messages|, last);
      OneMoreSection(InputContent(front), before, front, last, InputContent(messages));
      assert front + [last] == messages;
    }
  }

  /** `kept` is what `content` holds at these places, in order, and thinking is exactly what stands elsewhere. */
  ghost predicate KeepsSpoken(kept: seq<Part>, content: seq<Part>, places: seq<nat>) {
    && |places| == |kept|
    && (forall i, j | 0 <= i < j < |places| :: places[i] < places[j])
    && (forall i | 0 <= i < |places| :: places[i] < |content| && kept[i] == content[places[i]])
    && (forall j | 0 <= j < |content| :: j in places <==> !content[j].ThinkPart?)
  }

  lemma KeepsMore(kept: seq<Part>, content: seq<Part>, places: seq<nat>, last: Part)
    requires KeepsSpoken(kept, content, places)
    ensures if last.ThinkPart? then KeepsSpoken(kept, content + [last], places)
            else KeepsSpoken(kept + [last], content + [last], places + [|content|])
  {
    var more := if last.ThinkPart? then places else places + [|content|];
    forall j | 0 <= j <= |content| ensures j in more <==> !(content + [last])[j].ThinkPart? {
      assert j in more <==> j in places || (j == |content| && !last.ThinkPart?);
    }
  }

  lemma {:induction false} SpokenPlaces(content: seq<Part>) returns (places: seq<nat>)
    ensures KeepsSpoken(WithoutThinking(content), content, places)
  {
    if content == [] {
      places := [];
    } else {
      var front, last := content[..|content| - 1], content[|content| - 1];
      assert front + [last] == content;
      var before := SpokenPlaces(front);
      KeepsMore(WithoutThinking(front), front, before, last);
      places := if last.ThinkPart? then before else before + [|front|];
      assert WithoutThinking(content) == WithoutThinking(front) + if last.ThinkPart? then [] else [last];
      assert WithoutThinking(front) + [] == WithoutThinking(front);
    }
  }

  lemma {:induction false} NothingToDrop(content: seq<Part>)
    requires forall i | 0 <= i < |content| :: !content[i].ThinkPart?
    ensures WithoutThinking(content) == content
  {
    if content != [] {
      var front, last := content[..|content| - 1], content[|content| - 1];
      NothingToDrop(front);
      assert front + [last] == content;
    }
  }

  /** The first message is the marker followed by the summary, of which nothing but the thinking is lost. */
  lemma SummarySurvives(messages: seq<Message>, maxPreserved: int, prompt: string, summary: Message)
    requires Prepare(messages, maxPreserved, prompt).input.Some?
    ensures var result := Compacted(messages, maxPreserved, prompt, summary);
      && result != [] && result[0].content != []
      && result[0] == PlainMessage(User, result[0].content) && result[0].content[0] == SystemText(OUTPUT_PREFIX)
      && (exists places :: KeepsSpoken(result[0].content[1..], summary.content, places))
      && ((forall p | p in summary.content :: !p.ThinkPart?) ==> result[0].content[1..] == summary.content)
  {
    var places := SpokenPlaces(summary.content);
    var result := Compacted(messages, maxPreserved, prompt, summary);
    assert result[0].content[1..] == WithoutThinking(summary.content);
    if forall p | p in summary.content :: !p.ThinkPart? {
      assert forall i | 0 <= i < |summary.content| :: summary.content[i] in summary.content;
      NothingToDrop(summary.content);
    }
  }

  /** `a` can be found in `b` in order. */
  ghost predicate Embedded(a: seq<Part>, b: seq<Part>) {
    a == [] || (b != [] && (Embedded(a, b[..|b| - 1])
      || (a[|a| - 1] == b[|b| - 1] && Embedded(a[..|a| - 1], b[..|b| - 1]))))
  }

  function AllTexts(messages: seq<Message>): seq<Part> {
    if messages == [] then []
    else AllTexts(messages[..|messages| - 1]) + TextParts(messages[|messages| - 1].content)
  }

  lemma {:induction false} EmbeddedSame(a: seq<Part>, b: seq<Part>, c: seq<Part>)
    requires Embedded(a, b)
    ensures Embedded(a + c, b + c)
  {
    if c == [] {
      assert a + c == a && b + c == b;
    } else {
      EmbeddedSame(a, b, c[..|c| - 1]);
      assert (a + c)[..|a + c| - 1] == a + c[..|c| - 1];
      assert (b + c)[..|b + c| - 1] == b + c[..|c| - 1];
    }
  }

  /** Every text of the compacted prefix reaches the summarising model, in order. */
  lemma {:induction false} InputCarriesTexts(messages: seq<Message>)
    ensures Embedded(AllTexts(messages), InputContent(messages))
  {
    if messages != [] {
      var front, last := messages[..|messages| - 1], messages[|messages| - 1];
      InputCarriesTexts(front);
      var headed := InputContent(front) + [Heading(|messages|, last.role)];
      assert headed[..|headed| - 1] == InputContent(front);
      EmbeddedSame(AllTexts(front), headed, TextParts(last.content));
    }
  }
}
