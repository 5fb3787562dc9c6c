/**
 The journal of a conversation: the typed records of the context file, their replay, and the cut that
 `revert_to` makes in it. A file is a sequence of records; `Junk` stands for a line
 the replay skips.
 */
module ContextLog {
  import opened Wrappers
  import opened Messages

  datatype Record =
    | MessageRecord(message: Message)
    | UsageRecord(tokenCount: int)
    | CheckpointRecord(id: int)
    | PromptRecord(prompt: string)
    | Junk(kind: JunkKind)

  /** Blank or malformed lines are `Unreadable`; `Unusable` ones are objects without the expected fields. */
  datatype JunkKind = Unreadable | Unusable(userRole: bool)

  type Log = seq<Record>

  /** What a replay rebuilds. `unsized` are the messages after the last usage record. */
  datatype Replayed = Replayed(
    history: seq<Message>,
    tokenCount: int,
    nextCheckpoint: int,
    prompt: Option<string>,
    unsized: seq<Message>)

  const EMPTY := Replayed([], 0, 0, None, [])

  function ApplyRecord(s: Replayed, r: Record): Replayed {
    match r
    case MessageRecord(m) => s.(history := s.history + [m], unsized := s.unsized + [m])
    case UsageRecord(n) => s.(tokenCount := n, unsized := [])
    case CheckpointRecord(id) => s.(nextCheckpoint := id + 1)
    case PromptRecord(p) => s.(prompt := Some(p))
    case Junk(_) => s
  }

  function ReplayFrom(s: Replayed, log: Log): Replayed {
    if log == [] then s
    else ApplyRecord(ReplayFrom(s, log[..|log| - 1]), log[|log| - 1])
  }

  function Replay(log: Log): Replayed {
    ReplayFrom(EMPTY, log)
  }

  function MessageRecords(messages: seq<Message>): (log: Log)
    ensures |log| == |messages|
    ensures forall i | 0 <= i < |log| :: log[i] == MessageRecord(messages[i])
  {
    seq(|messages|, i requires 0 <= i < |messages| => MessageRecord(messages[i]))
  }

  lemma {:induction false} ReplayConcat(s: Replayed, a: Log, b: Log)
    ensures ReplayFrom(s, a + b) == ReplayFrom(ReplayFrom(s, a), b)
  {
    if b == [] {
      assert a + b == a;
    } else {
      ReplayConcat(s, a, b[..|b| - 1]);
      assert (a + b)[..|a + b| - 1] == a + b[..|b| - 1];
    }
  }

  lemma {:induction false} ReplayMessages(s: Replayed, messages: seq<Message>)
    ensures ReplayFrom(s, MessageRecords(messages))
         == s.(history := s.history + messages, unsized := s.unsized + messages)
  {
    if messages == [] {
      assert s.history + messages == s.history && s.unsized + messages == s.unsized;
    } else {
      var front, last := messages[..|messages| - 1], messages[|messages| - 1];
      ReplayMessages(s, front);
      assert MessageRecords(messages)[..|messages| - 1] == MessageRecords(front);
      assert s.history + messages == s.history + front + [last];
      assert s.unsized + messages == s.unsized + front + [last];
    }
  }

  /** The ids of the checkpoint records, in file order. */
  function Ids(log: Log): seq<int> {
    if log == [] then []
    else if log[0].CheckpointRecord? then [log[0].id] + Ids(log[1..])
    else Ids(log[1..])
  }

  /** Checkpoints are numbered 0, 1, 2, ... in file order. */
  ghost predicate Ordered(log: Log) {
    forall i | 0 <= i < |Ids(log)| :: Ids(log)[i] == i
  }

  lemma {:induction false} IdsConcat(a: Log, b: Log)
    ensures Ids(a + b) == Ids(a) + Ids(b)
  {
    if a == [] {
      assert a + b == b;
    } else {
      IdsConcat(a[1..], b);
      assert (a + b)[1..] == a[1..] + b;
    }
  }

  lemma {:induction false} IdsMembership(log: Log, k: int)
    ensures CheckpointRecord(k) in log <==> k in Ids(log)
  {
    if log != [] {
      IdsMembership(log[1..], k);
      assert log == [log[0]] + log[1..];
    }
  }

  lemma {:induction false} MessagesHaveNoIds(messages: seq<Message>)
    ensures Ids(MessageRecords(messages)) == []
  {
    if messages != [] {
      assert MessageRecords(messages)[1..] == MessageRecords(messages[1..]);
      MessagesHaveNoIds(messages[1..]);
    }
  }

  /** In an ordered log the replayed counter is the number of checkpoints. */
  lemma {:induction false} OrderedCounter(log: Log)
    requires Ordered(log)
    ensures Replay(log).nextCheckpoint == |Ids(log)|
  {
    if log != [] {
      var front, last := log[..|log| - 1], log[|log| - 1];
      assert log == front + [last];
      IdsConcat(front, [last]);
      assert Ids([last]) == if last.CheckpointRecord? then [last.id] else [] by { assert [last][1..] == []; }
      assert forall i | 0 <= i < |Ids(front)| :: Ids(front)[i] == Ids(log)[i];
      OrderedCounter(front);
      if last.CheckpointRecord? {
        assert Ids(log)[|Ids(front)|] == last.id;
      }
    }
  }

  /** The records `revert_to(k)` copies: everything before the first checkpoint `k`, junk dropped. */
  function KeptBefore(log: Log, k: int): Log {
    if log == [] || log[0] == CheckpointRecord(k) then []
    else if log[0].Junk? then KeptBefore(log[1..], k)
    else [log[0]] + KeptBefore(log[1..], k)
  }

  function WithoutJunk(log: Log): Log {
    if log == [] then []
    else
      var last := log[|log| - 1];
      WithoutJunk(log[..|log| - 1]) + if last.Junk? then [] else [last]
  }

  lemma {:induction false} WithoutJunkConcat(a: Log, b: Log)
    ensures WithoutJunk(a + b) == WithoutJunk(a) + WithoutJunk(b)
  {
    if b == [] {
      assert a + b == a;
    } else {
      WithoutJunkConcat(a, b[..|b| - 1]);
      assert (a + b)[..|a + b| - 1] == a + b[..|b| - 1];
    }
  }

  lemma {:induction false} KeptIsPrefix(log: Log, k: int) returns (at: nat)
    requires CheckpointRecord(k) in log
    ensures at < |log| && log[at] == CheckpointRecord(k) && CheckpointRecord(k) !in log[..at]
    ensures KeptBefore(log, k) == WithoutJunk(log[..at])
  {
    if log[0] == CheckpointRecord(k) {
      at := 0;
    } else {
      assert log == [log[0]] + log[1..];
      var later := KeptIsPrefix(log[1..], k);
      at := later + 1;
      assert log[..at] == [log[0]] + log[1..][..later];
      WithoutJunkConcat([log[0]], log[1..][..later]);
      assert WithoutJunk([log[0]]) == if log[0].Junk? then [] else [log[0]];
    }
  }

  /** A log with neither junk nor system prompts: what decides history, token count and counter. */
  function Core(log: Log): Log {
    if log == [] then []
    else if log[0].Junk? || log[0].PromptRecord? then Core(log[1..])
    else [log[0]] + Core(log[1..])
  }

  lemma {:induction false} CoreConcat(a: Log, b: Log)
    ensures Core(a + b) == Core(a) + Core(b)
  {
    if a == [] {
      assert a + b == b;
    } else {
      var rest := a[1..];
      assert a + b == [a[0]] + (rest + b);
      CoreConcat(rest, b);
      CoreOfCons(a[0], rest + b);
      CoreOfCons(a[0], rest);
      assert a == [a[0]] + rest;
    }
  }

  lemma CoreOfCons(r: Record, log: Log)
    ensures Core([r] + log) == (if r.Junk? || r.PromptRecord? then [] else [r]) + Core(log)
  {
    assert ([r] + log)[1..] == log;
    assert [] + Core(log) == Core(log);
  }

  /** Replays that agree in everything but the system prompt. */
  ghost predicate SameButPrompt(s: Replayed, t: Replayed) {
    s.(prompt := None) == t.(prompt := None)
  }

  lemma {:induction false} ReplayOfCore(log: Log)
    ensures SameButPrompt(Replay(Core(log)), Replay(log))
  {
    if log != [] {
      var front, last := log[..|log| - 1], log[|log| - 1];
      assert log == front + [last];
      CoreConcat(front, [last]);
      assert Core([last]) == if last.Junk? || last.PromptRecord? then [] else [last] by { assert [last][1..] == []; }
      ReplayOfCore(front);
      if last.Junk? || last.PromptRecord? {
        assert Core(log) == Core(front);
      } else {
        ReplayConcat(EMPTY, Core(front), [last]);
        assert [last][..0] == [];
      }
    }
  }

  /** Without a checkpoint `k` the whole log is kept, junk aside; with one, later records do not matter. */
  lemma {:induction false} KeptBeforeConcat(a: Log, b: Log, k: int)
    ensures KeptBefore(a + b, k)
         == if CheckpointRecord(k) in a then KeptBefore(a, k) else KeptBefore(a, k) + KeptBefore(b, k)
  {
    if a == [] {
      assert a + b == b;
    } else {
      assert a == [a[0]] + a[1..];
      assert (a + b)[1..] == a[1..] + b;
      KeptBeforeConcat(a[1..], b, k);
    }
  }

  lemma {:induction false} CoreOfKept(log: Log, k: int)
    requires CheckpointRecord(k) !in log
    ensures Core(KeptBefore(log, k)) == Core(log)
  {
    if log != [] {
      assert log == [log[0]] + log[1..];
      CoreOfKept(log[1..], k);
      if !log[0].Junk? {
        assert KeptBefore(log, k)[1..] == KeptBefore(log[1..], k);
      }
    }
  }

  /** Cutting at `j` and then at `k` is cutting at `k`, provided `k` comes first or `j` never comes. */
  lemma {:induction false} CutTwice(log: Log, j: int, k: int)
    requires CheckpointRecord(j) !in KeptBefore(log, k)
    requires CheckpointRecord(j) in log ==> CheckpointRecord(k) in log
    requires j != k
    ensures KeptBefore(KeptBefore(log, j), k) == KeptBefore(log, k)
    ensures CheckpointRecord(k) in KeptBefore(log, j) <==> CheckpointRecord(k) in log
  {
    if log != [] {
      assert log == [log[0]] + log[1..];
      if log[0] == CheckpointRecord(k) {
        assert KeptBefore(log, j)[0] == log[0];
      } else {
        if !log[0].Junk? {
          assert KeptBefore(log, k)[0] == log[0];
        }
        forall r | r in KeptBefore(log[1..], k) ensures r in KeptBefore(log, k) {}
        CutTwice(log[1..], j, k);
        if !log[0].Junk? {
          assert KeptBefore(log, j)[1..] == KeptBefore(log[1..], j);
        }
      }
    }
  }

  lemma {:induction false} IdsOfKept(log: Log, k: int)
    ensures Ids(KeptBefore(log, k)) <= Ids(log)
    ensures k !in Ids(KeptBefore(log, k))
    ensures CheckpointRecord(k) in log ==>
      |Ids(KeptBefore(log, k))| < |Ids(log)| && Ids(log)[|Ids(KeptBefore(log, k))|] == k
    ensures CheckpointRecord(k) !in log ==> Ids(KeptBefore(log, k)) == Ids(log)
  {
    if log != [] {
      assert log == [log[0]] + log[1..];
      IdsOfKept(log[1..], k);
      if !log[0].Junk? && log[0] != CheckpointRecord(k) {
        assert KeptBefore(log, k)[1..] == KeptBefore(log[1..], k);
      }
    }
  }

  /** In an ordered log the cut at checkpoint `k` keeps exactly the checkpoints below `k`. */
  lemma CutOfOrdered(log: Log, k: int)
    requires Ordered(log)
    ensures Ordered(KeptBefore(log, k))
    ensures CheckpointRecord(k) in log <==> 0 <= k < |Ids(log)|
    ensures |Ids(KeptBefore(log, k))| == if 0 <= k < |Ids(log)| then k else |Ids(log)|
  {
    IdsOfKept(log, k);
    IdsMembership(log, k);
    if 0 <= k < |Ids(log)| {
      assert Ids(log)[k] == k;
    }
  }

  /** Ordered logs can be cut in two stages: first at `j`, then at an earlier checkpoint `k`. */
  lemma CutOrderedTwice(log: Log, j: int, k: int)
    requires Ordered(log) && 0 <= k < |Ids(log)| && (k < j || j < 0)
    ensures KeptBefore(KeptBefore(log, j), k) == KeptBefore(log, k)
    ensures CheckpointRecord(k) in KeptBefore(log, j)
  {
    CutOfOrdered(log, k);
    CutOfOrdered(log, j);
    IdsMembership(KeptBefore(log, k), j);
    IdsOfKept(log, k);
    CutTwice(log, j, k);
  }
}
