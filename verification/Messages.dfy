/** Conversation messages, as far as the context, compaction and normalization code looks at them. */
module Messages {
  import opened Wrappers

  datatype Role = System | User | Assistant | Tool

  /** `MediaPart` stands for the image, audio and video parts. */
  datatype Part = TextPart(text: string) | ThinkPart(think: string) | MediaPart(url: string)

  /** `toolCallIds` are the ids of the calls an assistant message requests. */
  datatype Message = Message(
    role: Role,
    content: seq<Part>,
    name: Option<string>,
    toolCallIds: seq<string>,
    toolCallId: Option<string>,
    partial: Option<bool>)

  function PlainMessage(role: Role, content: seq<Part>): Message {
    Message(role, content, None, [], None, None)
  }

  /** The `<system>` wrapper that synthetic texts carry. */
  function SystemText(s: string): Part {
    TextPart("<system>" + s + "</system>")
  }

  function PartChars(p: Part): nat {
    if p.TextPart? then |p.text| else 0
  }

  function ContentChars(content: seq<Part>): nat {
    if content == [] then 0 else ContentChars(content[..|content| - 1]) + PartChars(content[|content| - 1])
  }

  /** Number of text characters in a message sequence. */
  function Chars(messages: seq<Message>): nat {
    if messages == [] then 0
    else Chars(messages[..|messages| - 1]) + ContentChars(messages[|messages| - 1].content)
  }

  /** The heuristic token estimate: four characters a token, rounded down once. */
  function Estimate(messages: seq<Message>): nat {
    Chars(messages) / 4
  }

  lemma {:induction false} CharsConcat(a: seq<Message>, b: seq<Message>)
    ensures Chars(a + b) == Chars(a) + Chars(b)
  {
    if b == [] {
      assert a + b == a;
    } else {
      CharsConcat(a, b[..|b| - 1]);
      assert (a + b)[..|a + b| - 1] == a + b[..|b| - 1];
    }
  }

  function TextIn(content: seq<Part>): string {
    if content == [] then ""
    else
      var last := content[|content| - 1];
      TextIn(content[..|content| - 1]) + match last case TextPart(text) => text case _ => ""
  }

  /** All text of a history in one string; thinking and media are no text. */
  function AllText(messages: seq<Message>): string {
    if messages == [] then "" else AllText(messages[..|messages| - 1]) + TextIn(messages[|messages| - 1].content)
  }

  lemma {:induction false} ContentCharsOfText(content: seq<Part>)
    ensures ContentChars(content) == |TextIn(content)|
  {
    if content != [] {
      ContentCharsOfText(content[..|content| - 1]);
    }
  }

  /** The estimate is a quarter of the length of all text, rounded down. */
  lemma {:induction false} EstimateIsAQuarterOfTheText(messages: seq<Message>)
    ensures Chars(messages) == |AllText(messages)|
    ensures 4 * Estimate(messages) <= |AllText(messages)| < 4 * Estimate(messages) + 4
  {
    if messages != [] {
      EstimateIsAQuarterOfTheText(messages[..|messages| - 1]);
      ContentCharsOfText(messages[|messages| - 1].content);
    }
  }

  /** `estimate_text_tokens`: one pass over all text parts, one division at the end. */
  method EstimateTextTokens(messages: seq<Message>) returns (tokens: nat)
    ensures tokens == Estimate(messages)
  {
    var totalChars := 0;
    for i := 0 to |messages|
      invariant totalChars == Chars(messages[..i])
    {
      var content := messages[i].content;
      for j := 0 to |content|
        invariant totalChars == Chars(messages[..i]) + ContentChars(content[..j])
      {
        assert content[..j + 1][..j] == content[..j];
        if content[j].TextPart? {
          totalChars := totalChars + |content[j].text|;
        }
      }
      assert content[..|content|] == content;
      assert messages[..i + 1][..i] == messages[..i];
    }
    assert messages[..|messages|] == messages;
    tokens := totalChars / 4;
  }
}
