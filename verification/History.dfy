/** Normalization of a history for the model API: adjacent user messages are merged, notifications excepted. */
module History {
  import opened Text
  import opened Messages

  /** A user message whose only part is text that opens with a notification tag. */
  predicate IsNotification(m: Message) {
    m.role == User && |m.content| == 1 && m.content[0].TextPart?
    && StartsWith(StripLeft(m.content[0].text), "<notification ")
  }

  /** A notification is a user message of one text that opens, after white space, with the tag. */
  lemma NotificationOpensWithItsTag(m: Message, blank: string, body: string)
    requires AllSpace(blank) && (body != "" ==> !IsSpace(body[0]))
    requires m.content == [TextPart(blank + body)]
    ensures IsNotification(m) <==> m.role == User && |body| >= 14 && body[..14] == "<notification "
  {
    StripLeftOfSpace(blank, body);
  }

  lemma OnlySingleTextsAreNotifications(m: Message)
    ensures IsNotification(m) ==> m.role == User && exists text :: m.content == [TextPart(text)]
  {
    if IsNotification(m) {
      assert m.content == [TextPart(m.content[0].text)];
    }
  }

  predicate Mergeable(a: Message, b: Message) {
    a.role == b.role && b.role == User && !IsNotification(a) && !IsNotification(b)
  }

  function Push(result: seq<Message>, m: Message): (r: seq<Message>)
    ensures |r| > 0
  {
    if result != [] && Mergeable(result[|result| - 1], m)
    then result[..|result| - 1] + [PlainMessage(User, result[|result| - 1].content + m.content)]
    else result + [m]
  }

  function PushAll(result: seq<Message>, history: seq<Message>): seq<Message> {
    if history == [] then result
    else Push(PushAll(result, history[..|history| - 1]), history[|history| - 1])
  }

  function Normalized(history: seq<Message>): seq<Message> {
    PushAll([], history)
  }

  method NormalizeHistory(history: seq<Message>) returns (result: seq<Message>)
    ensures result == Normalized(history)
  {
    result := [];
    if history == [] {
      return;
    }
    for i := 0 to |history|
      invariant result == Normalized(history[..i])
    {
      var m := history[i];
      assert history[..i + 1][..i] == history[..i];
      if |result| > 0 && result[|result| - 1].role == m.role && m.role == User
         && !IsNotification(result[|result| - 1]) && !IsNotification(m) {
        var merged := result[|result| - 1].content + m.content;
        result := result[|result| - 1 := PlainMessage(User, merged)];
      } else {
        result := result + [m];
      }
    }
    assert history[..|history|] == history;
  }

  /** No two neighbours could be merged any more. */
  ghost predicate Settled(messages: seq<Message>) {
    forall i | 0 < i < |messages| :: !Mergeable(messages[i - 1], messages[i])
  }

  /** Merging two messages that are not notifications never makes a notification, even with empty contents. */
  lemma MergedIsNoNotification(a: Message, b: Message)
    requires Mergeable(a, b)
    ensures !IsNotification(PlainMessage(User, a.content + b.content))
  {
    if a.content == [] {
      assert a.content + b.content == b.content;
    } else if b.content == [] {
      assert a.content + b.content == a.content;
    }
  }

  /** A push keeps all but the last message, and the last one keeps blocking or admitting merges as before. */
  lemma PushSettled(result: seq<Message>, m: Message)
    requires Settled(result)
    ensures Settled(Push(result, m))
  {
    if result != [] && Mergeable(result[|result| - 1], m) {
      var last := result[|result| - 1];
      MergedIsNoNotification(last, m);
      assert forall x :: Mergeable(x, PlainMessage(User, last.content + m.content)) ==> Mergeable(x, last);
    }
  }

  lemma {:induction false} NormalizedSettled(history: seq<Message>)
    ensures Settled(Normalized(history))
  {
    if history != [] {
      NormalizedSettled(history[..|history| - 1]);
      PushSettled(Normalized(history[..|history| - 1]), history[|history| - 1]);
    }
  }

  /** Settled histories are exactly the ones normalization leaves alone. */
  lemma {:induction false} SettledIsFixed(history: seq<Message>)
    ensures Normalized(history) == history <==> Settled(history)
  {
    NormalizedSettled(history);
    if history != [] && Settled(history) {
      var front := history[..|history| - 1];
      SettledIsFixed(front);
      assert history == front + [history[|history| - 1]];
    }
  }

  lemma NormalizeIsIdempotent(history: seq<Message>)
    ensures Normalized(Normalized(history)) == Normalized(history)
  {
    NormalizedSettled(history);
    SettledIsFixed(Normalized(history));
  }

  lemma {:induction false} PushAllConcat(result: seq<Message>, a: seq<Message>, b: seq<Message>)
    ensures PushAll(result, a + b) == PushAll(PushAll(result, a), b)
  {
    if b == [] {
      assert a + b == a;
    } else {
      PushAllConcat(result, a, b[..|b| - 1]);
      assert (a + b)[..|a + b| - 1] == a + b[..|b| - 1];
    }
  }

  /** The normalized form of a prefix can stand in for the prefix. */
  lemma NormalizeIncrementally(a: seq<Message>, b: seq<Message>)
    ensures Normalized(a + b) == Normalized(Normalized(a) + b)
  {
    PushAllConcat([], a, b);
    PushAllConcat([], Normalized(a), b);
    NormalizeIsIdempotent(a);
  }

  /** Appending a message changes nothing before the last normalized message. */
  lemma AppendKeepsPrefix(history: seq<Message>, m: Message)
    ensures var before, after := Normalized(history), Normalized(history + [m]);
      before != [] ==> |before| <= |after| && after[..|before| - 1] == before[..|before| - 1]
  {
    assert (history + [m])[..|history|] == history;
  }

  /** Every part of a history with the role it was said in, in order. */
  function Stream(history: seq<Message>): seq<(Role, Part)> {
    if history == [] then []
    else Stream(history[..|history| - 1]) + Said(history[|history| - 1])
  }

  function Said(m: Message): seq<(Role, Part)> {
    seq(|m.content|, i requires 0 <= i < |m.content| => (m.role, m.content[i]))
  }

  /** The messages that merging must not touch: other roles and notifications. */
  function Untouchable(history: seq<Message>): seq<Message> {
    if history == [] then []
    else
      var last := history[|history| - 1];
      if last.role == User && !IsNotification(last) then Untouchable(history[..|history| - 1])
      else Untouchable(history[..|history| - 1]) + [last]
  }

  /** Normalization keeps what was said, by whom and in which order, and keeps the untouchable messages whole. */
  lemma {:induction false} NormalizedKeepsContent(history: seq<Message>)
    ensures Stream(Normalized(history)) == Stream(history)
    ensures Untouchable(Normalized(history)) == Untouchable(history)
  {
    if history != [] {
      var front, m := history[..|history| - 1], history[|history| - 1];
      NormalizedKeepsContent(front);
      PushKeepsStream(Normalized(front), m);
      PushKeepsUntouchable(Normalized(front), m);
    }
  }

  lemma PushKeepsStream(result: seq<Message>, m: Message)
    ensures Stream(Push(result, m)) == Stream(result) + Said(m)
  {
    if result != [] && Mergeable(result[|result| - 1], m) {
      var front, last := result[..|result| - 1], result[|result| - 1];
      var merged := PlainMessage(User, last.content + m.content);
      assert (front + [merged])[..|front|] == front;
      assert Said(merged) == Said(last) + Said(m);
    } else {
      assert (result + [m])[..|result|] == result;
    }
  }

  lemma PushKeepsUntouchable(result: seq<Message>, m: Message)
    ensures Untouchable(Push(result, m)) ==
            Untouchable(result) + if m.role == User && !IsNotification(m) then [] else [m]
  {
    if result != [] && Mergeable(result[|result| - 1], m) {
      var front, last := result[..|result| - 1], result[|result| - 1];
      MergedIsNoNotification(last, m);
      assert (front + [PlainMessage(User, last.content + m.content)])[..|front|] == front;
    } else {
      assert (result + [m])[..|result|] == result;
    }
  }
}
