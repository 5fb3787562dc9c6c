/** The toolset object: the deduplication state and the steps that change it. */
module Toolset {
  import opened Wrappers
  import opened CanonicalJson
  import opened CanonicalArguments
  import opened ToolDedup

  class KimiToolset {
    var tools: set<string>
    var previousStepCalls: seq<CallKey>
    var currentStepCalls: seq<CallKey>
    var currentStepTasks: map<CallKey, Task>
    var seenCallKeys: set<CallKey>
    var consecutiveKey: Option<CallKey>
    var consecutiveCount: nat
    var stepClosed: bool
    var dedupTriggered: bool
    var forceStopTurn: bool

    ghost function Value(): State
      reads this
    {
      State(previousStepCalls, currentStepCalls, currentStepTasks, seenCallKeys,
            consecutiveKey, consecutiveCount, stepClosed, dedupTriggered, forceStopTurn)
    }

    constructor (tools: set<string>)
      ensures Value() == FRESH && this.tools == tools
    {
      this.tools := tools;
      previousStepCalls, currentStepCalls, currentStepTasks, seenCallKeys := [], [], map[], {};
      consecutiveKey, consecutiveCount := None, 0;
      stepClosed, dedupTriggered, forceStopTurn := false, false, false;
    }

    method AdvanceConsecutiveStreak(calls: seq<CallKey>)
      modifies this`consecutiveKey, this`consecutiveCount
      ensures (consecutiveKey, consecutiveCount) == Advance(old(consecutiveKey), old(consecutiveCount), calls)
    {
      var i := 0;
      while i < |calls|
        invariant 0 <= i <= |calls|
        invariant Advance(consecutiveKey, consecutiveCount, calls[i..])
               == Advance(old(consecutiveKey), old(consecutiveCount), calls)
      {
        assert calls[i..][1..] == calls[i + 1..];
        if Some(calls[i]) == consecutiveKey {
          consecutiveCount := consecutiveCount + 1;
        } else {
          consecutiveKey := Some(calls[i]);
          consecutiveCount := 1;
        }
        i := i + 1;
      }
    }

    method ProjectedStreakForCall(callIndex: nat) returns (streak: nat)
      requires callIndex < |currentStepCalls|
      ensures streak == Projected(Value(), callIndex)
    {
      var calls := currentStepCalls[..callIndex + 1];
      var key;
      key, streak := consecutiveKey, consecutiveCount;
      var i := 0;
      while i < |calls|
        invariant 0 <= i <= |calls|
        invariant Advance(key, streak, calls[i..]) == Advance(consecutiveKey, consecutiveCount, calls)
      {
        assert calls[i..][1..] == calls[i + 1..];
        if Some(calls[i]) == key {
          streak := streak + 1;
        } else {
          key := Some(calls[i]);
          streak := 1;
        }
        i := i + 1;
      }
    }

    method NormalizeCalls(previousCalls: seq<(string, string)>) returns (keys: seq<CallKey>)
      ensures keys == KeysOf(previousCalls)
    {
      keys := [];
      for i := 0 to |previousCalls|
        invariant keys == KeysOf(previousCalls)[..i]
      {
        keys := keys + [CallKeyOf(previousCalls[i].0, previousCalls[i].1)];
      }
    }

    method BeginStep(previousCalls: seq<(string, string)>)
      modifies this
      ensures Value() == ToolDedup.BeginStep(old(Value()), previousCalls) && tools == old(tools)
    {
      previousStepCalls := NormalizeCalls(previousCalls);
      currentStepCalls, currentStepTasks := [], map[];
      stepClosed, dedupTriggered, forceStopTurn := false, false, false;
      if previousStepCalls == [] {
        seenCallKeys, consecutiveKey, consecutiveCount := {}, None, 0;
      } else {
        seenCallKeys := seenCallKeys + SetOf(previousStepCalls);
        if consecutiveKey == None && consecutiveCount == 0 {
          AdvanceConsecutiveStreak(previousStepCalls);
        }
      }
    }

    method EndStep() returns (calls: seq<CallKey>)
      modifies this
      ensures Value() == ToolDedup.EndStep(old(Value())) && tools == old(tools)
      ensures calls == currentStepCalls
    {
      if !stepClosed {
        AdvanceConsecutiveStreak(currentStepCalls);
        seenCallKeys := seenCallKeys + SetOf(currentStepCalls);
        stepClosed := true;
      }
      return currentStepCalls;
    }

    method Handle(call: ToolCall) returns (handled: Handled)
      modifies this
      ensures (Value(), handled) == ToolDedup.Handle(old(Value()), Receive(tools, call)) && tools == old(tools)
    {
      if call.name !in tools {
        return ToolNotFound(call.id);
      }
      var parsed := Parse(if call.arguments == "" then "{}" else call.arguments);
      if parsed.Fail? {
        return ParseError(call.id);
      }
      var key := (call.name, Canonical(parsed.value));
      handled := HandleAccepted(call.id, key);
    }

    /** The part of `handle` after the arguments are parsed. */
    method HandleAccepted(callId: string, key: CallKey) returns (handled: Handled)
      modifies this
      ensures (Value(), handled) == HandleKey(old(Value()), callId, key) && tools == old(tools)
    {
      var callIndex := |currentStepCalls|;
      currentStepCalls := currentStepCalls + [key];
      if key in currentStepTasks {
        return Duplicate(callId, currentStepTasks[key]);
      }
      var reminder := NoReminder;
      if key in seenCallKeys {
        var repeatCount := ProjectedStreakForCall(callIndex);
        assert currentStepCalls[..callIndex + 1] == currentStepCalls;
        var (action, text) := RepeatReminder(repeatCount, key);
        reminder := text;
        dedupTriggered := true;
        if action == Stop {
          forceStopTurn := true;
        }
      }
      var task := Task(callId, key, reminder);
      currentStepTasks := currentStepTasks[key := task];
      return Started(task);
    }
  }
}
