/**
 The conversation context: memory and journal, changed together by every operation. `State` and `Step` say
 what each operation does to both, and the lemmas follow whole runs of operations.
 */
module ContextOps {
  import opened Wrappers
  import opened Text
  import opened Messages
  import opened ContextLog

  /** `log` is `None` while the context file does not exist; `rotated` holds the files moved away. */
  datatype State = State(
    log: Option<Log>,
    rotated: seq<Log>,
    history: seq<Message>,
    tokenCount: int,
    pending: int,
    nextCheckpoint: int,
    prompt: Option<string>)

  datatype Op =
    | Append(messages: seq<Message>)
    | UpdateUsage(tokens: int)
    | TakeCheckpoint(addUserMessage: bool)
    | WritePrompt(text: string)
    | RevertTo(id: int, canRotate: bool)
    | Clear(canRotate: bool)
    | Restore

  datatype ContextError = AlreadyModified | NoSuchCheckpoint | NoRotationPath | FileMissing

  function Fresh(log: Option<Log>): State {
    State(log, [], [], 0, 0, 0, None)
  }

  function LogOf(s: State): Log {
    s.log.GetOr([])
  }

  /** The synthetic user message that announces a checkpoint to the model. */
  function CheckpointMessage(id: int): Message {
    PlainMessage(User, [SystemText("CHECKPOINT " + DecimalInt(id))])
  }

  function AppendMessages(s: State, messages: seq<Message>): State {
    s.(log := Some(LogOf(s) + MessageRecords(messages)),
       history := s.history + messages,
       pending := s.pending + Estimate(messages))
  }

  /** The fields a replay starts from when it runs over the current memory. */
  function Memory(s: State): Replayed {
    Replayed(s.history, s.tokenCount, s.nextCheckpoint, s.prompt, [])
  }

  function Loaded(s: State, r: Replayed): State {
    s.(history := r.history, tokenCount := r.tokenCount, pending := Estimate(r.unsized),
       nextCheckpoint := r.nextCheckpoint, prompt := r.prompt)
  }

  /** The error an operation raises, if any. An operation that raises leaves everything as it was. */
  function Failure(s: State, op: Op): Option<ContextError> {
    match op
    case RevertTo(id, canRotate) =>
      if id >= s.nextCheckpoint then Some(NoSuchCheckpoint)
      else if !canRotate then Some(NoRotationPath)
      else if s.log.None? then Some(FileMissing)
      else None
    case Clear(canRotate) =>
      if !canRotate then Some(NoRotationPath)
      else if s.log.None? then Some(FileMissing)
      else None
    case Restore => if s.history != [] then Some(AlreadyModified) else None
    case _ => None
  }

  function Step(s: State, op: Op): State {
    if Failure(s, op).Some? then s else
    match op
    case Append(messages) => AppendMessages(s, messages)
    case UpdateUsage(tokens) =>
      s.(log := Some(LogOf(s) + [UsageRecord(tokens)]), tokenCount := tokens, pending := 0)
    case TakeCheckpoint(addUserMessage) =>
      var id := s.nextCheckpoint;
      var t := s.(log := Some(LogOf(s) + [CheckpointRecord(id)]), nextCheckpoint := id + 1);
      if addUserMessage then AppendMessages(t, [CheckpointMessage(id)]) else t
    case WritePrompt(text) =>
      s.(log := Some([PromptRecord(text)] + LogOf(s)), prompt := Some(text))
    case RevertTo(id, _) =>
      var kept := KeptBefore(LogOf(s), id);
      Loaded(s.(log := Some(kept), rotated := s.rotated + [LogOf(s)]), Replay(kept))
    case Clear(_) => State(Some([]), s.rotated + [LogOf(s)], [], 0, 0, 0, None)
    case Restore => if LogOf(s) == [] then s else Loaded(s, ReplayFrom(Memory(s), LogOf(s)))
  }

  function Run(s: State, ops: seq<Op>): State
    decreases |ops|
  {
    if ops == [] then s else Run(Step(s, ops[0]), ops[1..])
  }

  /** A session as it is opened: a new context over an existing or missing file, restored once. */
  function Opened(log: Option<Log>): State {
    Step(Fresh(log), Restore)
  }

  // ---------------------------------------------------------------- memory is the replay of the journal

  ghost predicate MatchesJournal(s: State) {
    var r := Replay(LogOf(s));
    s.history == r.history && s.tokenCount == r.tokenCount
    && s.nextCheckpoint == r.nextCheckpoint && s.prompt == r.prompt
  }

  ghost predicate Consistent(s: State) {
    MatchesJournal(s) && Ordered(LogOf(s))
  }

  /** Callers write a system prompt only when none is set, or repeat the one that is. */
  predicate Allowed(s: State, op: Op) {
    op.WritePrompt? ==> s.prompt == None || s.prompt == Some(op.text)
  }

  predicate AllowedRun(s: State, ops: seq<Op>)
    decreases |ops|
  {
    ops != [] ==> Allowed(s, ops[0]) && AllowedRun(Step(s, ops[0]), ops[1..])
  }

  lemma ConsistentCounter(s: State)
    requires Consistent(s)
    ensures s.nextCheckpoint == |Ids(LogOf(s))|
  {
    OrderedCounter(LogOf(s));
  }

  /** A prompt in front of a log decides the replayed prompt only if no later record does. */
  lemma {:induction false} ReplayAfterPrompt(text: string, log: Log)
    ensures var r := Replay([PromptRecord(text)] + log);
      SameButPrompt(r, Replay(log)) && r.prompt == Some(Replay(log).prompt.GetOr(text))
  {
    if log == [] {
      assert [PromptRecord(text)] + log == [PromptRecord(text)];
      assert [PromptRecord(text)][..0] == [];
    } else {
      ReplayAfterPrompt(text, log[..|log| - 1]);
      assert ([PromptRecord(text)] + log)[..|log|] == [PromptRecord(text)] + log[..|log| - 1];
    }
  }

  /**
   Prepending a prompt keeps memory equal to the journal exactly when no different prompt is set: replay lets
   the last prompt record win, and the prepended one comes first.
   */
  lemma WritePromptMatchesJournal(s: State, text: string)
    requires Consistent(s)
    ensures Consistent(Step(s, WritePrompt(text))) <==> s.prompt == None || s.prompt == Some(text)
  {
    ReplayAfterPrompt(text, LogOf(s));
    IdsConcat([PromptRecord(text)], LogOf(s));
    assert Ids([PromptRecord(text)]) == [] by { assert [PromptRecord(text)][1..] == []; }
  }

  lemma AppendMatchesJournal(s: State, messages: seq<Message>)
    requires Consistent(s)
    ensures Consistent(AppendMessages(s, messages))
  {
    ReplayConcat(EMPTY, LogOf(s), MessageRecords(messages));
    ReplayMessages(Replay(LogOf(s)), messages);
    IdsConcat(LogOf(s), MessageRecords(messages));
    MessagesHaveNoIds(messages);
  }

  lemma OneRecordMatchesJournal(log: Log, r: Record)
    ensures Replay(log + [r]) == ApplyRecord(Replay(log), r)
    ensures Ids(log + [r]) == Ids(log) + if r.CheckpointRecord? then [r.id] else []
  {
    assert (log + [r])[..|log|] == log;
    IdsConcat(log, [r]);
    assert [r][1..] == [];
  }

  /** Replaying a journal over the memory it already describes changes nothing when it holds no message. */
  lemma {:induction false} ReplayOverItself(log: Log, s: Replayed)
    requires Replay(log).history == []
    requires s.history == [] && s.unsized == []
    ensures var r := ReplayFrom(s, log);
      && r.history == [] && r.unsized == Replay(log).unsized == []
      && (r.tokenCount == Replay(log).tokenCount || (r.tokenCount == s.tokenCount && Replay(log).tokenCount == 0))
      && (s.tokenCount == Replay(log).tokenCount ==> r.tokenCount == s.tokenCount)
      && (s.nextCheckpoint == Replay(log).nextCheckpoint ==> r.nextCheckpoint == s.nextCheckpoint)
      && (r.nextCheckpoint == Replay(log).nextCheckpoint || r.nextCheckpoint == s.nextCheckpoint)
      && (s.prompt == Replay(log).prompt ==> r.prompt == s.prompt)
      && (r.prompt == Replay(log).prompt || r.prompt == s.prompt)
  {
    if log != [] {
      ReplayOverItself(log[..|log| - 1], s);
    }
  }

  lemma RestoreMatchesJournal(s: State)
    requires Consistent(s)
    ensures Consistent(Step(s, Restore))
  {
    if s.history == [] && LogOf(s) != [] {
      ReplayOverItself(LogOf(s), Memory(s));
    }
  }

  lemma OrderedAppend(log: Log, id: int)
    requires Ordered(log) && id == |Ids(log)|
    ensures Ordered(log + [CheckpointRecord(id)])
  {
    IdsConcat(log, [CheckpointRecord(id)]);
    assert [CheckpointRecord(id)][1..] == [];
  }

  lemma BareCheckpointConsistent(s: State)
    requires Consistent(s)
    ensures Consistent(Step(s, TakeCheckpoint(false)))
  {
    var id, log := s.nextCheckpoint, LogOf(s);
    ConsistentCounter(s);
    OrderedAppend(log, id);
    OneRecordMatchesJournal(log, CheckpointRecord(id));
    CheckpointState(s);
  }

  lemma CheckpointState(s: State)
    ensures var t := Step(s, TakeCheckpoint(false));
      && LogOf(t) == LogOf(s) + [CheckpointRecord(s.nextCheckpoint)]
      && t.history == s.history && t.tokenCount == s.tokenCount && t.prompt == s.prompt
      && t.nextCheckpoint == s.nextCheckpoint + 1
  {
  }

  lemma CheckpointThenMessage(s: State)
    ensures Step(s, TakeCheckpoint(true)) ==
            AppendMessages(Step(s, TakeCheckpoint(false)), [CheckpointMessage(s.nextCheckpoint)])
  {
  }

  lemma CheckpointConsistent(s: State, addUserMessage: bool)
    requires Consistent(s)
    ensures Consistent(Step(s, TakeCheckpoint(addUserMessage)))
  {
    BareCheckpointConsistent(s);
    if addUserMessage {
      CheckpointThenMessage(s);
      AppendMatchesJournal(Step(s, TakeCheckpoint(false)), [CheckpointMessage(s.nextCheckpoint)]);
    }
  }

  lemma UsageConsistent(s: State, tokens: int)
    requires Consistent(s)
    ensures Consistent(Step(s, UpdateUsage(tokens)))
  {
    OneRecordMatchesJournal(LogOf(s), UsageRecord(tokens));
  }

  lemma RevertConsistent(s: State, id: int, canRotate: bool)
    requires Consistent(s)
    ensures Consistent(Step(s, RevertTo(id, canRotate)))
  {
    CutOfOrdered(LogOf(s), id);
  }

  lemma ClearConsistent(s: State, canRotate: bool)
    requires Consistent(s)
    ensures Consistent(Step(s, Clear(canRotate)))
  {
  }

  /** Every operation the runtime performs keeps memory equal to the replay of the file. */
  lemma StepConsistent(s: State, op: Op)
    requires Consistent(s) && Allowed(s, op)
    ensures Consistent(Step(s, op))
  {
    match op
    case Append(messages) => AppendMatchesJournal(s, messages);
    case UpdateUsage(tokens) => UsageConsistent(s, tokens);
    case TakeCheckpoint(addUserMessage) => CheckpointConsistent(s, addUserMessage);
    case WritePrompt(text) => WritePromptMatchesJournal(s, text);
    case RevertTo(id, canRotate) => RevertConsistent(s, id, canRotate);
    case Clear(canRotate) => ClearConsistent(s, canRotate);
    case Restore => RestoreMatchesJournal(s);
  }

  lemma OpenedConsistent(log: Option<Log>)
    requires Ordered(log.GetOr([]))
    ensures Consistent(Opened(log))
  {
  }

  lemma {:induction false} RunConsistent(s: State, ops: seq<Op>)
    requires Consistent(s) && AllowedRun(s, ops)
    ensures Consistent(Run(s, ops))
    decreases |ops|
  {
    if ops != [] {
      StepConsistent(s, ops[0]);
      RunConsistent(Step(s, ops[0]), ops[1..]);
    }
  }

  /**
   After any run of a session, a new context restored from its file has the same history, token count,
   checkpoint counter and system prompt.
   */
  lemma RestartReproducesLiveState(log: Option<Log>, ops: seq<Op>)
    requires Ordered(log.GetOr([])) && AllowedRun(Opened(log), ops)
    ensures var live, restarted := Run(Opened(log), ops), Opened(Run(Opened(log), ops).log);
      && restarted.history == live.history && restarted.tokenCount == live.tokenCount
      && restarted.nextCheckpoint == live.nextCheckpoint && restarted.prompt == live.prompt
      && restarted.log == live.log
  {
    OpenedConsistent(log);
    RunConsistent(Opened(log), ops);
  }

  // ---------------------------------------------------------------- reverting

  /** Reverting to `k` and then to an earlier `j` is reverting to `j` at once; only the rotation differs. */
  lemma RevertTwice(s: State, j: int, k: int)
    requires Consistent(s) && s.log.Some? && 0 <= j < k < s.nextCheckpoint
    ensures var twice := Step(Step(s, RevertTo(k, true)), RevertTo(j, true));
      twice.(rotated := []) == Step(s, RevertTo(j, true)).(rotated := [])
  {
    ConsistentCounter(s);
    CutOrderedTwice(LogOf(s), k, j);
    CutOfOrdered(LogOf(s), k);
    StepConsistent(s, RevertTo(k, true));
    ConsistentCounter(Step(s, RevertTo(k, true)));
  }

  /** An operation that leaves checkpoint `k` in the journal. */
  predicate Spares(op: Op, k: int) {
    !(op.Clear? && op.canRotate) && (op.RevertTo? ==> !(0 <= op.id <= k))
  }

  predicate SparesRun(ops: seq<Op>, k: int) {
    forall i | 0 <= i < |ops| :: Spares(ops[i], k)
  }

  /** What a revert to `k` would bring back, prompts aside. */
  function Before(s: State, k: int): Log {
    Core(KeptBefore(LogOf(s), k))
  }

  lemma StepSparesCheckpoint(s: State, op: Op, k: int)
    requires Consistent(s) && Allowed(s, op) && Spares(op, k) && 0 <= k < s.nextCheckpoint
    ensures Before(Step(s, op), k) == Before(s, k)
    ensures k < Step(s, op).nextCheckpoint
  {
    var t := Step(s, op);
    StepConsistent(s, op);
    ConsistentCounter(s);
    ConsistentCounter(t);
    CutOfOrdered(LogOf(s), k);
    match op {
    case Append(messages) =>
      KeptBeforeConcat(LogOf(s), MessageRecords(messages), k);
    case UpdateUsage(tokens) => KeptBeforeConcat(LogOf(s), [UsageRecord(tokens)], k);
    case TakeCheckpoint(addUserMessage) =>
      KeptBeforeConcat(LogOf(s), [CheckpointRecord(s.nextCheckpoint)], k);
      KeptBeforeConcat(LogOf(s) + [CheckpointRecord(s.nextCheckpoint)],
                       MessageRecords([CheckpointMessage(s.nextCheckpoint)]), k);
    case WritePrompt(text) =>
      assert ([PromptRecord(text)] + LogOf(s))[1..] == LogOf(s);
      assert ([PromptRecord(text)] + KeptBefore(LogOf(s), k))[1..] == KeptBefore(LogOf(s), k);
    case RevertTo(id, _) =>
      if Failure(s, op).None? {
        CutOrderedTwice(LogOf(s), id, k);
        CutOfOrdered(LogOf(s), id);
      }
    case Clear(_) =>
    case Restore =>
    }
    CutOfOrdered(LogOf(t), k);
  }

  lemma {:induction false} RunSparesCheckpoint(s: State, ops: seq<Op>, k: int)
    requires Consistent(s) && AllowedRun(s, ops) && SparesRun(ops, k) && 0 <= k < s.nextCheckpoint
    ensures Before(Run(s, ops), k) == Before(s, k)
    ensures k < Run(s, ops).nextCheckpoint
    decreases |ops|
  {
    if ops != [] {
      StepSparesCheckpoint(s, ops[0], k);
      StepConsistent(s, ops[0]);
      RunSparesCheckpoint(Step(s, ops[0]), ops[1..], k);
    }
  }

  /**
   Whatever a run does after taking a checkpoint, short of clearing the context or reverting that far back,
   reverting to the checkpoint brings back the history, token count and counter from just before it was
   taken, and the journal of that moment up to junk and system prompts.
   */
  lemma RevertReturnsToCheckpoint(s: State, addUserMessage: bool, ops: seq<Op>)
    requires Consistent(s)
    requires AllowedRun(Step(s, TakeCheckpoint(addUserMessage)), ops)
    requires SparesRun(ops, s.nextCheckpoint)
    ensures var k := s.nextCheckpoint;
      var late := Run(Step(s, TakeCheckpoint(addUserMessage)), ops);
      var back := Step(late, RevertTo(k, true));
      && Failure(late, RevertTo(k, true)).None?
      && back.history == s.history && back.tokenCount == s.tokenCount && back.nextCheckpoint == k
      && Core(LogOf(back)) == Core(LogOf(s))
      && back.pending == Estimate(Replay(LogOf(s)).unsized)
  {
    var k := s.nextCheckpoint;
    var taken := Step(s, TakeCheckpoint(addUserMessage));
    ConsistentCounter(s);
    CutOfOrdered(LogOf(s), k);
    StepConsistent(s, TakeCheckpoint(addUserMessage));
    var marker := [CheckpointRecord(k)];
    KeptBeforeConcat(LogOf(s), marker, k);
    KeptBeforeConcat(LogOf(s) + marker, MessageRecords([CheckpointMessage(k)]), k);
    assert KeptBefore(LogOf(taken), k) == KeptBefore(LogOf(s), k);
    CoreOfKept(LogOf(s), k);

    var late := Run(taken, ops);
    RunSparesCheckpoint(taken, ops, k);
    RunConsistent(taken, ops);
    FileExistsWithCheckpoint(late, k);
    ReplayOfCore(KeptBefore(LogOf(late), k));
    ReplayOfCore(LogOf(s));
  }

  lemma FileExistsWithCheckpoint(s: State, k: int)
    requires Consistent(s) && 0 <= k < s.nextCheckpoint
    ensures s.log.Some?
  {
  }

  /**
   Reverting finds exactly the checkpoints that the file holds, and can only be kept from them by a file that cannot be
   moved away; clearing needs a file that can. What fails changes nothing.
   */
  lemma OperationsFailIff(s: State, id: nat, canRotate: bool)
    requires Consistent(s)
    ensures Failure(s, RevertTo(id, canRotate)) == Some(NoSuchCheckpoint) <==> CheckpointRecord(id) !in LogOf(s)
    ensures Failure(s, RevertTo(id, canRotate)).None? <==> CheckpointRecord(id) in LogOf(s) && canRotate
    ensures Failure(s, Clear(canRotate)).None? <==> s.log.Some? && canRotate
    ensures Failure(s, Restore).None? <==> s.history == []
    ensures forall op :: Failure(s, op).Some? ==> Step(s, op) == s
  {
    ConsistentCounter(s);
    CutOfOrdered(LogOf(s), id);
  }

  /** Which error is raised, in any state: the first that applies. */
  lemma FailuresNameTheirCause(s: State, id: int)
    ensures Failure(s, RevertTo(id, true)) == Some(NoSuchCheckpoint) <==> id >= s.nextCheckpoint
    ensures Failure(s, RevertTo(id, false)) == Some(NoRotationPath) <==> id < s.nextCheckpoint
    ensures Failure(s, RevertTo(id, true)) == Some(FileMissing) <==> id < s.nextCheckpoint && s.log.None?
    ensures Failure(s, Clear(false)) == Some(NoRotationPath)
    ensures Failure(s, Clear(true)) == Some(FileMissing) <==> s.log.None?
    ensures Failure(s, Restore) == Some(AlreadyModified) <==> s.history != []
  {
  }

  /** Clearing moves the old file away and starts over with an empty one. */
  lemma ClearStartsOver(s: State)
    requires s.log.Some?
    ensures var t := Step(s, Clear(true));
      && t.log == Some([]) && t.rotated == s.rotated + [s.log.value] && t.history == [] && t.prompt.None?
      && t.tokenCount == 0 && t.pending == 0 && t.nextCheckpoint == 0
  {
  }

  /** A revert moves the old file away and leaves what stood in front of the checkpoint, junk aside. */
  lemma RevertCutsInFront(s: State, id: nat) returns (at: nat)
    requires Consistent(s) && CheckpointRecord(id) in LogOf(s)
    ensures at < |LogOf(s)| && LogOf(s)[at] == CheckpointRecord(id) && CheckpointRecord(id) !in LogOf(s)[..at]
    ensures var t := Step(s, RevertTo(id, true));
      t.rotated == s.rotated + [LogOf(s)] && t.log == Some(WithoutJunk(LogOf(s)[..at]))
  {
    OperationsFailIff(s, id, true);
    at := KeptIsPrefix(LogOf(s), id);
  }

  /** The steps that rebuild the context around a compaction leave the compacted messages and nothing else. */
  lemma CompactionRebuildsContext(s: State, text: string, announce: bool, messages: seq<Message>, tokens: int)
    requires Consistent(s) && s.log.Some?
    ensures var ops := [Clear(true), WritePrompt(text), TakeCheckpoint(announce), Append(messages), UpdateUsage(tokens)];
      var t := Run(s, ops);
      && AllowedRun(s, ops) && Consistent(t)
      && t.history == (if announce then [CheckpointMessage(0)] else []) + messages
      && t.tokenCount == tokens && t.pending == 0 && t.nextCheckpoint == 1 && t.prompt == Some(text)
      && t.rotated == s.rotated + [LogOf(s)]
  {
    var s1 := Step(s, Clear(true));
    var s2 := Step(s1, WritePrompt(text));
    var s3 := Step(s2, TakeCheckpoint(announce));
    var s4 := Step(s3, Append(messages));
    var u := UpdateUsage(tokens);
    RunFirst(s4, u, []);
    RunFirst(s3, Append(messages), [u]);
    RunFirst(s2, TakeCheckpoint(announce), [Append(messages), u]);
    RunFirst(s1, WritePrompt(text), [TakeCheckpoint(announce), Append(messages), u]);
    RunFirst(s, Clear(true), [WritePrompt(text), TakeCheckpoint(announce), Append(messages), u]);
    var ops := [Clear(true), WritePrompt(text), TakeCheckpoint(announce), Append(messages), u];
    assert ops == [Clear(true)] + ([WritePrompt(text)] + ([TakeCheckpoint(announce)] + ([Append(messages)] + ([u] + []))));
    RunConsistent(s, ops);
    RebuiltState(s, text, announce, messages, tokens);
  }

  lemma RunFirst(s: State, op: Op, ops: seq<Op>)
    ensures Run(s, [op] + ops) == Run(Step(s, op), ops)
    ensures AllowedRun(s, [op] + ops) <==> Allowed(s, op) && AllowedRun(Step(s, op), ops)
  {
    assert ([op] + ops)[1..] == ops;
  }

  lemma RebuiltState(s: State, text: string, announce: bool, messages: seq<Message>, tokens: int)
    requires s.log.Some?
    ensures var s1 := Step(s, Clear(true));
      var s2 := Step(s1, WritePrompt(text));
      var t := Step(Step(Step(s2, TakeCheckpoint(announce)), Append(messages)), UpdateUsage(tokens));
      && Allowed(s1, WritePrompt(text))
      && t.history == (if announce then [CheckpointMessage(0)] else []) + messages
      && t.tokenCount == tokens && t.pending == 0 && t.nextCheckpoint == 1 && t.prompt == Some(text)
      && t.rotated == s.rotated + [LogOf(s)]
  {
  }

  // ---------------------------------------------------------------- the pending token estimate

  function Sum(chunks: seq<nat>): nat {
    if chunks == [] then 0 else Sum(chunks[..|chunks| - 1]) + chunks[|chunks| - 1]
  }

  function SumOfFloors(chunks: seq<nat>): nat {
    if chunks == [] then 0 else SumOfFloors(chunks[..|chunks| - 1]) + chunks[|chunks| - 1] / 4
  }

  /** The character counts that were rounded down one by one since the last usage record. */
  function ChunksAfter(s: State, op: Op, chunks: seq<nat>): seq<nat> {
    if Failure(s, op).Some? then chunks else
    match op
    case Append(messages) => chunks + [Chars(messages)]
    case UpdateUsage(_) => []
    case TakeCheckpoint(addUserMessage) =>
      if addUserMessage then chunks + [Chars([CheckpointMessage(s.nextCheckpoint)])] else chunks
    case WritePrompt(_) => chunks
    case RevertTo(id, _) => [Chars(Replay(KeptBefore(LogOf(s), id)).unsized)]
    case Clear(_) => []
    case Restore => if LogOf(s) == [] then chunks else [Chars(ReplayFrom(Memory(s), LogOf(s)).unsized)]
  }

  function RunChunks(s: State, ops: seq<Op>, chunks: seq<nat>): seq<nat>
    decreases |ops|
  {
    if ops == [] then chunks else RunChunks(Step(s, ops[0]), ops[1..], ChunksAfter(s, ops[0], chunks))
  }

  ghost predicate Tracked(s: State, chunks: seq<nat>) {
    s.pending == SumOfFloors(chunks) && Chars(Replay(LogOf(s)).unsized) == Sum(chunks)
  }

  lemma {:induction false} FloorsLose(chunks: seq<nat>)
    ensures 4 * SumOfFloors(chunks) <= Sum(chunks) <= 4 * SumOfFloors(chunks) + 3 * |chunks|
  {
    if chunks != [] {
      FloorsLose(chunks[..|chunks| - 1]);
    }
  }

  lemma OneMoreChunk(chunks: seq<nat>, n: nat)
    ensures Sum(chunks + [n]) == Sum(chunks) + n && SumOfFloors(chunks + [n]) == SumOfFloors(chunks) + n / 4
  {
    assert (chunks + [n])[..|chunks|] == chunks;
  }

  lemma UnsizedGrows(s: State, messages: seq<Message>)
    ensures Replay(LogOf(AppendMessages(s, messages))).unsized == Replay(LogOf(s)).unsized + messages
  {
    ReplayConcat(EMPTY, LogOf(s), MessageRecords(messages));
    ReplayMessages(Replay(LogOf(s)), messages);
  }

  lemma AppendTracked(s: State, messages: seq<Message>, chunks: seq<nat>)
    requires Tracked(s, chunks)
    ensures Tracked(AppendMessages(s, messages), chunks + [Chars(messages)])
  {
    UnsizedGrows(s, messages);
    CharsConcat(Replay(LogOf(s)).unsized, messages);
    OneMoreChunk(chunks, Chars(messages));
  }

  lemma StepTracked(s: State, op: Op, chunks: seq<nat>)
    requires Consistent(s) && Tracked(s, chunks)
    ensures Tracked(Step(s, op), ChunksAfter(s, op, chunks))
  {
    match op
    case Append(messages) => AppendTracked(s, messages, chunks);
    case UpdateUsage(tokens) => OneRecordMatchesJournal(LogOf(s), UsageRecord(tokens));
    case TakeCheckpoint(addUserMessage) =>
      OneRecordMatchesJournal(LogOf(s), CheckpointRecord(s.nextCheckpoint));
      AppendTracked(Step(s, TakeCheckpoint(false)), [CheckpointMessage(s.nextCheckpoint)], chunks);
    case WritePrompt(text) => ReplayAfterPrompt(text, LogOf(s));
    case RevertTo(id, _) =>
      if Failure(s, op).None? { OneChunk(Chars(Replay(KeptBefore(LogOf(s), id)).unsized)); }
    case Clear(_) =>
    case Restore =>
      if s.history == [] && LogOf(s) != [] {
        ReplayOverItself(LogOf(s), Memory(s));
        OneChunk(0);
      }
  }

  lemma OneChunk(n: nat)
    ensures Sum([n]) == n && SumOfFloors([n]) == n / 4
  {
    assert [n][..0] == [];
  }

  lemma {:induction false} RunTracked(s: State, ops: seq<Op>, chunks: seq<nat>)
    requires Consistent(s) && Tracked(s, chunks) && AllowedRun(s, ops)
    ensures Tracked(Run(s, ops), RunChunks(s, ops, chunks))
    decreases |ops|
  {
    if ops != [] {
      StepTracked(s, ops[0], chunks);
      StepConsistent(s, ops[0]);
      RunTracked(Step(s, ops[0]), ops[1..], ChunksAfter(s, ops[0], chunks));
    }
  }

  /**
   The live pending estimate never exceeds the one a restart computes from the same file, and falls short of it
   by at most three quarters of a token for every separately rounded chunk.
   */
  lemma PendingEstimateBound(log: Option<Log>, ops: seq<Op>)
    requires Ordered(log.GetOr([])) && AllowedRun(Opened(log), ops)
    ensures var live := Run(Opened(log), ops);
      var chunks := RunChunks(Opened(log), ops, [Chars(Replay(log.GetOr([])).unsized)]);
      live.pending <= Opened(live.log).pending <= live.pending + 3 * |chunks| / 4
  {
    var chunks := [Chars(Replay(log.GetOr([])).unsized)];
    OneChunk(chunks[0]);
    OpenedConsistent(log);
    RunTracked(Opened(log), ops, chunks);
    FloorsLose(RunChunks(Opened(log), ops, chunks));
  }

  /** The bound is reached: `n` messages of three characters each leave a gap of exactly floor(3n/4). */
  lemma {:induction false} PendingEstimateGapIsReached(n: nat)
    ensures var short := PlainMessage(User, [TextPart("abc")]);
      var live := Run(Opened(None), seq(n, _ => Append([short])));
      live.pending == 0 && Chars(Replay(LogOf(live)).unsized) == 3 * n && Opened(live.log).pending == 3 * n / 4
  {
    var short := PlainMessage(User, [TextPart("abc")]);
    ShortAppends(n, Opened(None), 0);
    var live := Run(Opened(None), seq(n, _ => Append([short])));
    assert LogOf(live) == [] ==> live.log.GetOr([]) == [];
  }

  lemma OneShortAppend(s: State, before: nat)
    requires s.pending == 0 && Chars(Replay(LogOf(s)).unsized) == before
    ensures var t := Step(s, Append([PlainMessage(User, [TextPart("abc")])]));
      t.pending == 0 && Chars(Replay(LogOf(t)).unsized) == before + 3
  {
    var short := PlainMessage(User, [TextPart("abc")]);
    assert [short][..0] == [] && short.content[..0] == [];
    assert ContentChars(short.content) == 3;
    assert Chars([short]) == 3;
    ReplayConcat(EMPTY, LogOf(s), MessageRecords([short]));
    ReplayMessages(Replay(LogOf(s)), [short]);
    CharsConcat(Replay(LogOf(s)).unsized, [short]);
  }

  lemma {:induction false} ShortAppends(n: nat, s: State, before: nat)
    requires s.pending == 0 && Chars(Replay(LogOf(s)).unsized) == before
    ensures var short := PlainMessage(User, [TextPart("abc")]);
      var t := Run(s, seq(n, _ => Append([short])));
      t.pending == 0 && Chars(Replay(LogOf(t)).unsized) == before + 3 * n
    decreases n
  {
    var short := PlainMessage(User, [TextPart("abc")]);
    var ops := seq(n, _ => Append([short]));
    if n > 0 {
      assert ops[1..] == seq(n - 1, _ => Append([short]));
      OneShortAppend(s, before);
      ShortAppends(n - 1, Step(s, Append([short])), before + 3);
    }
  }
}
