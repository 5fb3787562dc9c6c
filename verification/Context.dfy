/** The context object, performing each operation on its fields and its file as the runtime does. */
module SessionContext {
  import opened Wrappers
  import opened Messages
  import opened ContextLog
  import opened ContextOps

  class Context {
    var log: Option<Log>
    var rotated: seq<Log>
    var history: seq<Message>
    var tokenCount: int
    var pending: int
    var nextCheckpoint: int
    var prompt: Option<string>

    ghost function Value(): State
      reads this
    {
      State(log, rotated, history, tokenCount, pending, nextCheckpoint, prompt)
    }

    constructor (log: Option<Log>)
      ensures Value() == Fresh(log)
    {
      this.log := log;
      rotated, history, tokenCount, pending, nextCheckpoint, prompt := [], [], 0, 0, 0, None;
    }

    /** Applies one parsed line to the fields; the result says whether a revert keeps the line. */
    method ApplyContextRecord(record: Record, unsized: seq<Message>) returns (unsized': seq<Message>, keep: bool)
      modifies this`history, this`tokenCount, this`nextCheckpoint, this`prompt
      ensures Replayed(history, tokenCount, nextCheckpoint, prompt, unsized')
           == ApplyRecord(old(Replayed(history, tokenCount, nextCheckpoint, prompt, unsized)), record)
      ensures keep <==> !record.Junk?
    {
      unsized', keep := unsized, true;
      match record
      case MessageRecord(m) =>
        history := history + [m];
        unsized' := unsized + [m];
      case UsageRecord(n) =>
        tokenCount := n;
        unsized' := [];
      case CheckpointRecord(id) => nextCheckpoint := id + 1;
      case PromptRecord(p) => prompt := Some(p);
      case Junk(_) => keep := false;
    }

    method Restore() returns (r: Result<bool, ContextError>)
      modifies this
      ensures Value() == Step(old(Value()), ContextOps.Restore)
      ensures r == match Failure(old(Value()), ContextOps.Restore)
        case Some(e) => Err(e)
        case None => Ok(old(log).GetOr([]) != [])
    {
      if history != [] {
        return Err(AlreadyModified);
      }
      if log == None || log.value == [] {
        return Ok(false);
      }
      ghost var start := Memory(Value());
      var lines, unsized := log.value, [];
      for i := 0 to |lines|
        invariant log == Some(lines) && rotated == old(rotated) && pending == old(pending)
        invariant Replayed(history, tokenCount, nextCheckpoint, prompt, unsized) == ReplayFrom(start, lines[..i])
      {
        assert lines[..i + 1][..i] == lines[..i];
        var keep;
        unsized, keep := ApplyContextRecord(lines[i], unsized);
      }
      assert lines[..|lines|] == lines;
      pending := EstimateTextTokens(unsized);
      return Ok(true);
    }

    method WriteSystemPrompt(text: string)
      modifies this
      ensures Value() == Step(old(Value()), WritePrompt(text))
    {
      if log == None || log.value == [] {
        log := Some([PromptRecord(text)]);
      } else {
        log := Some([PromptRecord(text)] + log.value);
      }
      prompt := Some(text);
      assert [PromptRecord(text)] + [] == [PromptRecord(text)];
    }

    method Checkpoint(addUserMessage: bool)
      modifies this
      ensures Value() == Step(old(Value()), TakeCheckpoint(addUserMessage))
    {
      var id := nextCheckpoint;
      nextCheckpoint := nextCheckpoint + 1;
      log := Some(log.GetOr([]) + [CheckpointRecord(id)]);
      if addUserMessage {
        AppendMessage([CheckpointMessage(id)]);
      }
    }

    method RevertTo(id: int, canRotate: bool) returns (r: Result<(), ContextError>)
      modifies this
      ensures Value() == Step(old(Value()), ContextOps.RevertTo(id, canRotate))
      ensures r == match Failure(old(Value()), ContextOps.RevertTo(id, canRotate))
        case Some(e) => Err(e)
        case None => Ok(())
    {
      if id >= nextCheckpoint {
        return Err(NoSuchCheckpoint);
      }
      if !canRotate {
        return Err(NoRotationPath);
      }
      if log == None {
        return Err(FileMissing);
      }
      var lines := log.value;
      rotated := rotated + [lines];
      history, tokenCount, nextCheckpoint, prompt := [], 0, 0, None;
      var unsized, newFile := ReplayUntil(lines, id);
      log := Some(newFile);
      pending := EstimateTextTokens(unsized);
      return Ok(());
    }

    /** The loop of a revert: replays the old file into the emptied fields and copies the lines it keeps. */
    method ReplayUntil(lines: Log, id: int) returns (unsized: seq<Message>, newFile: Log)
      requires Replayed(history, tokenCount, nextCheckpoint, prompt, []) == EMPTY
      modifies this`history, this`tokenCount, this`nextCheckpoint, this`prompt
      ensures newFile == KeptBefore(lines, id)
      ensures Replayed(history, tokenCount, nextCheckpoint, prompt, unsized) == Replay(newFile)
    {
      unsized, newFile := [], [];
      var i := 0;
      while i < |lines| && lines[i] != CheckpointRecord(id)
        invariant 0 <= i <= |lines|
        invariant newFile + KeptBefore(lines[i..], id) == KeptBefore(lines, id)
        invariant Replayed(history, tokenCount, nextCheckpoint, prompt, unsized) == Replay(newFile)
      {
        var keep;
        unsized, keep := ApplyContextRecord(lines[i], unsized);
        assert lines[i..][1..] == lines[i + 1..];
        if keep {
          OneRecordMatchesJournal(newFile, lines[i]);
          newFile := newFile + [lines[i]];
        }
        i := i + 1;
      }
      assert KeptBefore(lines[i..], id) == [];
    }

    method Clear(canRotate: bool) returns (r: Result<(), ContextError>)
      modifies this
      ensures Value() == Step(old(Value()), ContextOps.Clear(canRotate))
      ensures r == match Failure(old(Value()), ContextOps.Clear(canRotate))
        case Some(e) => Err(e)
        case None => Ok(())
    {
      if !canRotate {
        return Err(NoRotationPath);
      }
      if log == None {
        return Err(FileMissing);
      }
      rotated := rotated + [log.value];
      log := Some([]);
      history, tokenCount, pending, nextCheckpoint, prompt := [], 0, 0, 0, None;
      return Ok(());
    }

    method AppendMessage(messages: seq<Message>)
      modifies this
      ensures Value() == Step(old(Value()), Append(messages))
    {
      history := history + messages;
      var tokens := EstimateTextTokens(messages);
      pending := pending + tokens;
      var lines := log.GetOr([]);
      for i := 0 to |messages|
        invariant lines == log.GetOr([]) + MessageRecords(messages[..i])
      {
        lines := lines + [MessageRecord(messages[i])];
      }
      assert messages[..|messages|] == messages;
      log := Some(lines);
    }

    method UpdateTokenCount(tokens: int)
      modifies this
      ensures Value() == Step(old(Value()), UpdateUsage(tokens))
    {
      tokenCount := tokens;
      pending := 0;
      log := Some(log.GetOr([]) + [UsageRecord(tokens)]);
    }
  }
}
