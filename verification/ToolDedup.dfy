/**
 Deduplication of tool calls and loop breaking. A step of the agent begins, handles the model's calls and ends;
 a failed attempt at a step is begun again. `Tracked` histories are the accepted calls since the last reset.
 */
module ToolDedup {
  import opened Wrappers
  import opened CanonicalJson
  import opened CanonicalArguments
  import opened JsonTexts

  /** Empty `arguments` stand for missing ones. */
  datatype ToolCall = ToolCall(id: string, name: string, arguments: string)

  datatype Reminder =
    | NoReminder
    | Gentle
    | Detailed(toolName: string, repeatCount: nat, arguments: string)
    | DeadEnd

  datatype RepeatAction = Nothing | R1 | R2 | R3 | Stop

  /** How a call is received: refused for an unknown tool or malformed arguments, or accepted under its key. */
  datatype Verdict = UnknownTool | Malformed | AcceptedAs(key: CallKey)

  datatype Received = Received(id: string, verdict: Verdict)

  /** A started execution; its result carries `callId`, with the reminder appended. */
  datatype Task = Task(callId: string, key: CallKey, reminder: Reminder)

  datatype Handled =
    | ToolNotFound(callId: string)
    | ParseError(callId: string)
    | Started(task: Task)
    | Duplicate(callId: string, original: Task)

  datatype State = State(
    previous: seq<CallKey>,
    current: seq<CallKey>,
    tasks: map<CallKey, Task>,
    seen: set<CallKey>,
    streakKey: Option<CallKey>,
    streakCount: nat,
    closed: bool,
    dedupTriggered: bool,
    forceStop: bool)

  const FRESH := State([], [], map[], {}, None, 0, false, false, false)

  const FORCE_STOP := 12

  function RepeatReminder(streak: nat, key: CallKey): (RepeatAction, Reminder) {
    if streak >= FORCE_STOP then (Stop, DeadEnd)
    else if streak >= 8 then (R3, DeadEnd)
    else if streak >= 5 then (R2, Detailed(key.0, streak, key.1))
    else if streak >= 3 then (R1, Gentle)
    else (Nothing, NoReminder)
  }

  /** The streak after more calls. */
  function Advance(key: Option<CallKey>, count: nat, calls: seq<CallKey>): (Option<CallKey>, nat)
    decreases |calls|
  {
    if calls == [] then (key, count)
    else Advance(Some(calls[0]), if key == Some(calls[0]) then count + 1 else 1, calls[1..])
  }

  function KeysOf(calls: seq<(string, string)>): (keys: seq<CallKey>)
    ensures |keys| == |calls|
    ensures forall i | 0 <= i < |calls| :: keys[i] == CallKeyOf(calls[i].0, calls[i].1)
  {
    seq(|calls|, i requires 0 <= i < |calls| => CallKeyOf(calls[i].0, calls[i].1))
  }

  function SetOf(keys: seq<CallKey>): set<CallKey> {
    set k | k in keys
  }

  function BeginStep(s: State, previousCalls: seq<(string, string)>): State {
    var previous := KeysOf(previousCalls);
    var begun := s.(previous := previous, current := [], tasks := map[], closed := false,
                    dedupTriggered := false, forceStop := false);
    if previous == [] then begun.(seen := {}, streakKey := None, streakCount := 0)
    else
      var seen := s.seen + SetOf(previous);
      if s.streakKey == None && s.streakCount == 0 then
        var (key, count) := Advance(None, 0, previous);
        begun.(seen := seen, streakKey := key, streakCount := count)
      else begun.(seen := seen)
  }

  function EndStep(s: State): State {
    if s.closed then s
    else
      var (key, count) := Advance(s.streakKey, s.streakCount, s.current);
      s.(streakKey := key, streakCount := count, seen := s.seen + SetOf(s.current), closed := true)
  }

  function VerdictOf(tools: set<string>, call: ToolCall): Verdict {
    if call.name !in tools then UnknownTool
    else
      match Parse(if call.arguments == "" then "{}" else call.arguments)
      case Fail => Malformed
      case Got(arguments, _) => AcceptedAs((call.name, Canonical(arguments)))
  }

  function Receive(tools: set<string>, call: ToolCall): Received {
    Received(call.id, VerdictOf(tools, call))
  }

  function ReceiveAll(tools: set<string>, calls: seq<ToolCall>): (r: seq<Received>)
    ensures |r| == |calls|
    ensures forall i | 0 <= i < |calls| :: r[i] == Receive(tools, calls[i])
  {
    seq(|calls|, i requires 0 <= i < |calls| => Receive(tools, calls[i]))
  }

  function Projected(s: State, index: nat): nat
    requires index < |s.current|
  {
    Advance(s.streakKey, s.streakCount, s.current[..index + 1]).1
  }

  /** The reminder for a call that an earlier step made already. */
  function RepeatOf(s: State, key: CallKey): (RepeatAction, Reminder) {
    if key in s.seen
    then RepeatReminder(Advance(s.streakKey, s.streakCount, s.current + [key]).1, key)
    else (Nothing, NoReminder)
  }

  /** Handling an accepted call with its key. */
  function HandleKey(s: State, callId: string, key: CallKey): (State, Handled) {
    var current := s.current + [key];
    if key in s.tasks then (s.(current := current), Duplicate(callId, s.tasks[key]))
    else
      var (action, reminder) := RepeatOf(s, key);
      var task := Task(callId, key, reminder);
      (s.(current := current,
          tasks := s.tasks[key := task],
          dedupTriggered := s.dedupTriggered || key in s.seen,
          forceStop := s.forceStop || action == Stop),
       Started(task))
  }

  function Handle(s: State, call: Received): (State, Handled) {
    match call.verdict
    case UnknownTool => (s, ToolNotFound(call.id))
    case Malformed => (s, ParseError(call.id))
    case AcceptedAs(key) => HandleKey(s, call.id, key)
  }

  function HandleAll(s: State, calls: seq<Received>): (State, seq<Handled>) {
    if calls == [] then (s, [])
    else
      var (before, handled) := HandleAll(s, calls[..|calls| - 1]);
      var (after, h) := Handle(before, calls[|calls| - 1]);
      (after, handled + [h])
  }

  // ---------------------------------------------------------------- which calls are accepted

  /** A call is refused for an unknown tool, or for arguments that are neither missing nor any text of a JSON value. */
  lemma AcceptedIffWellWritten(tools: set<string>, call: ToolCall)
    ensures VerdictOf(tools, call) == UnknownTool <==> call.name !in tools
    ensures VerdictOf(tools, call).AcceptedAs? <==>
      call.name in tools && (call.arguments == "" || exists x :: IsLegalItem(x) && call.arguments == ItemText(x))
  {
    AcceptedIffText(call.arguments);
    if call.arguments == "" && call.name in tools {
      NoArguments(tools, call);
    }
  }

  /** Missing arguments are those of the empty object. */
  lemma NoArguments(tools: set<string>, call: ToolCall)
    requires call.arguments == "" && call.name in tools
    ensures VerdictOf(tools, call) == AcceptedAs((call.name, "{}"))
  {
    var empty := Object([]);
    assert WellFormed(empty) && SortJson(empty) == empty && Print(empty) == "{}";
    PrintRoundTrip(empty);
  }

  /** Two accepted calls are the same call exactly when tool and value are, however each wrote its arguments. */
  lemma SameCallIffSameValue(tools: set<string>, a: ToolCall, b: ToolCall, x: Item, y: Item)
    requires a.name in tools && b.name in tools && IsLegalItem(x) && IsLegalItem(y)
    requires a.arguments == ItemText(x) && b.arguments == ItemText(y)
    ensures VerdictOf(tools, a).AcceptedAs? && VerdictOf(tools, b).AcceptedAs?
    ensures VerdictOf(tools, a) == VerdictOf(tools, b) <==> a.name == b.name && Denotes(x.tree) == Denotes(y.tree)
  {
    TextStarts(x.tree);
    TextStarts(y.tree);
    TextIsAccepted(x);
    TextIsAccepted(y);
    SpellingsShareAKey(a.name, x, b.name, y);
  }

  // ---------------------------------------------------------------- results

  datatype OutputPart = OutputText(text: string) | OtherOutput(payload: string)
  datatype Output = Text(text: string) | Parts(parts: seq<OutputPart>)
  datatype ToolResult = ToolResult(callId: string, output: Output)

  /** A reminder goes at the end of the text output, or after the last part if that is not text. */
  function WithReminder(output: Output, reminder: string): Output {
    match output
    case Text(text) => Text(text + reminder)
    case Parts(parts) =>
      if parts != [] && parts[|parts| - 1].OutputText?
      then Parts(parts[..|parts| - 1] + [OutputText(parts[|parts| - 1].text + reminder)])
      else Parts(parts + [OutputText(reminder)])
  }

  /** `outputs` gives what the executed tools return, `render` the texts of reminders and errors. */
  function TaskOutput(task: Task, outputs: CallKey -> Output, render: Reminder -> string): Output {
    if task.reminder == NoReminder then outputs(task.key)
    else WithReminder(outputs(task.key), render(task.reminder))
  }

  function ResultOf(h: Handled, outputs: CallKey -> Output, render: Reminder -> string, error: Handled -> Output): ToolResult {
    match h
    case Started(task) => ToolResult(task.callId, TaskOutput(task, outputs, render))
    case Duplicate(id, original) => ToolResult(id, TaskOutput(original, outputs, render))
    case _ => ToolResult(h.callId, error(h))
  }

  /** A reminder is added at the very end, and nothing of the output is lost. */
  lemma ReminderComesLast(output: Output, reminder: string)
    ensures match output {
      case Text(text) => WithReminder(output, reminder).Text? && WithReminder(output, reminder).text == text + reminder
      case Parts(parts) =>
        var all := WithReminder(output, reminder);
        && all.Parts? && |parts| <= |all.parts| && all.parts != [] && all.parts[|all.parts| - 1].OutputText?
        && (forall i | 0 <= i < |all.parts| - 1 :: i < |parts| && all.parts[i] == parts[i])
        && (|all.parts| == |parts| <==> parts != [] && parts[|parts| - 1].OutputText?)
        && all.parts[|all.parts| - 1].text ==
           (if |all.parts| == |parts| && parts[|parts| - 1].OutputText? then parts[|parts| - 1].text else "") + reminder
    }
  {
  }

  // ---------------------------------------------------------------- runs of equal calls

  function LastKey(history: seq<CallKey>): Option<CallKey> {
    if history == [] then None else Some(history[|history| - 1])
  }

  /** The length of the run of equal calls at the end of a history. */
  function RunLength(history: seq<CallKey>): nat {
    var n := |history|;
    if n == 0 then 0
    else if n > 1 && history[n - 2] == history[n - 1] then RunLength(history[..n - 1]) + 1
    else 1
  }

  lemma {:induction false} RunLengthIsMaximal(history: seq<CallKey>)
    requires history != []
    ensures var n, last := RunLength(history), history[|history| - 1];
      && 1 <= n <= |history| && (forall i | |history| - n <= i < |history| :: history[i] == last)
      && (n < |history| ==> history[|history| - n - 1] != last)
  {
    var n := |history|;
    if n > 1 && history[n - 2] == history[n - 1] {
      RunLengthIsMaximal(history[..n - 1]);
    }
  }

  lemma {:induction false} AdvanceIsRunLength(history: seq<CallKey>, calls: seq<CallKey>)
    ensures Advance(LastKey(history), RunLength(history), calls) == (LastKey(history + calls), RunLength(history + calls))
    decreases |calls|
  {
    if calls == [] {
      assert history + calls == history;
    } else {
      var longer := history + [calls[0]];
      assert longer[..|history|] == history;
      AdvanceIsRunLength(longer, calls[1..]);
      assert longer + calls[1..] == history + calls;
    }
  }

  // ---------------------------------------------------------------- one step

  /** Before any call of a step: what the toolset remembers is the history. */
  ghost predicate Remembers(s: State, history: seq<CallKey>) {
    s.seen == SetOf(history) && s.streakKey == LastKey(history) && s.streakCount == RunLength(history)
  }

  function Accepted(calls: seq<Received>): seq<CallKey> {
    if calls == [] then []
    else
      var before, last := Accepted(calls[..|calls| - 1]), calls[|calls| - 1];
      if last.verdict.AcceptedAs? then before + [last.verdict.key] else before
  }

  /** Position `i` holds the first call of the step with its key, the key is older, and its run is long. */
  ghost predicate StopsAt(history: seq<CallKey>, current: seq<CallKey>, i: nat)
    requires i < |current|
  {
    current[i] !in current[..i] && current[i] in history && RunLength(history + current[..i + 1]) >= FORCE_STOP
  }

  ghost predicate Stopped(history: seq<CallKey>, current: seq<CallKey>) {
    exists i | 0 <= i < |current| :: StopsAt(history, current, i)
  }

  lemma StoppedByMore(history: seq<CallKey>, current: seq<CallKey>, key: CallKey)
    ensures Stopped(history, current + [key]) <==> Stopped(history, current) || StopsAt(history, current + [key], |current|)
  {
    var longer := current + [key];
    forall i | 0 <= i < |current| ensures StopsAt(history, longer, i) <==> StopsAt(history, current, i) {
      assert longer[..i] == current[..i] && longer[..i + 1] == current[..i + 1];
    }
    if Stopped(history, current) {
      var i :| 0 <= i < |current| && StopsAt(history, current, i);
      assert StopsAt(history, longer, i);
    }
    if Stopped(history, longer) {
      var i :| 0 <= i < |longer| && StopsAt(history, longer, i);
      assert i < |current| ==> StopsAt(history, current, i);
    }
  }

  /** The state while a step is open, after a remembered `history` and the calls `current`. */
  ghost predicate Open(s: State, history: seq<CallKey>) {
    && !s.closed && Remembers(s, history)
    && s.tasks.Keys == SetOf(s.current)
    && (forall k | k in s.tasks :: s.tasks[k].key == k)
    && (s.forceStop <==> Stopped(history, s.current))
    && (s.dedupTriggered <==> SetOf(s.current) * SetOf(history) != {})
  }

  /** The projected streak of a call is the run length of the history and the calls of the step up to it. */
  lemma ProjectedIsRunLength(s: State, history: seq<CallKey>, index: nat)
    requires Remembers(s, history) && index < |s.current|
    ensures Projected(s, index) == RunLength(history + s.current[..index + 1])
  {
    AdvanceIsRunLength(history, s.current[..index + 1]);
  }

  lemma SetOfMore(keys: seq<CallKey>, key: CallKey)
    ensures SetOf(keys + [key]) == SetOf(keys) + {key}
  {
  }

  lemma SetsMeetOneMore(a: set<CallKey>, b: set<CallKey>, key: CallKey)
    ensures (a + {key}) * b != {} <==> a * b != {} || key in b
  {
    assert (a + {key}) * b == a * b + {key} * b;
    assert {key} * b == if key in b then {key} else {};
  }

  /** A new call of a step stops the turn exactly when it is old and its run is long. */
  lemma RepeatStops(s: State, history: seq<CallKey>, key: CallKey)
    requires Remembers(s, history)
    ensures RepeatOf(s, key).0 == Stop <==> key in history && RunLength(history + (s.current + [key])) >= FORCE_STOP
  {
    AdvanceIsRunLength(history, s.current + [key]);
    assert key in s.seen <==> key in history;
  }

  lemma HandleKeyKeepsOpen(s: State, history: seq<CallKey>, callId: string, key: CallKey)
    requires Open(s, history)
    ensures Open(HandleKey(s, callId, key).0, history)
  {
    StoppedByMore(history, s.current, key);
    NewCallStops(history, s.current, key);
    SetOfMore(s.current, key);
    RepeatStops(s, history, key);
    SetsMeetOneMore(SetOf(s.current), SetOf(history), key);
    assert key in s.seen <==> key in history;
    assert key in s.tasks <==> key in SetOf(s.current);
    assert key in SetOf(s.current) <==> key in s.current;
  }

  lemma NewCallStops(history: seq<CallKey>, current: seq<CallKey>, key: CallKey)
    ensures StopsAt(history, current + [key], |current|) <==>
      key !in current && key in history && RunLength(history + (current + [key])) >= FORCE_STOP
  {
    var longer := current + [key];
    assert longer[..|current|] == current && longer[..|current| + 1] == longer;
  }

  lemma {:induction false} HandleAllKeepsOpen(s: State, history: seq<CallKey>, calls: seq<Received>)
    requires Open(s, history) && s.current == []
    ensures var t := HandleAll(s, calls).0;
      Open(t, history) && t.current == Accepted(calls) && t.previous == s.previous
  {
    if calls != [] {
      var front, last := calls[..|calls| - 1], calls[|calls| - 1];
      HandleAllKeepsOpen(s, history, front);
      if last.verdict.AcceptedAs? {
        HandleKeyKeepsOpen(HandleAll(s, front).0, history, last.id, last.verdict.key);
      }
    }
  }

  /**
   The first call of a step with its key is executed, and reminded by how long a run it ends if it is older than the
   step: gently from three on, in detail from five on, of the dead end from eight on. Twelve also stop the turn. Any
   later call with the key waits for that execution.
   */
  lemma CallIsRemindedByItsRun(s: State, history: seq<CallKey>, callId: string, key: CallKey)
    requires Open(s, history)
    ensures var (t, h) := HandleKey(s, callId, key);
      var run := RunLength(history + (s.current + [key]));
      && t.current == s.current + [key]
      && (key in s.current ==> h == Duplicate(callId, s.tasks[key]) && t.tasks == s.tasks && t.forceStop == s.forceStop)
      && (key !in s.current ==>
            && h.Started? && h.task.callId == callId && h.task.key == key && t.tasks == s.tasks[key := h.task]
            && (h.task.reminder == NoReminder <==> key !in history || run < 3)
            && (h.task.reminder == Gentle <==> key in history && 3 <= run < 5)
            && (h.task.reminder == Detailed(key.0, run, key.1) <==> key in history && 5 <= run < 8)
            && (h.task.reminder == DeadEnd <==> key in history && run >= 8)
            && (t.forceStop <==> s.forceStop || (key in history && run >= 12)))
  {
    AdvanceIsRunLength(history, s.current + [key]);
    assert key in s.seen <==> key in history;
    assert key in s.tasks <==> key in SetOf(s.current);
  }

  /**
   Only the first accepted call of a step can stop the turn: the turn is stopped exactly when that call extends
   the trailing run of the history to twelve or more.
   */
  lemma ForceStopIsDecidedByFirstCall(s: State, history: seq<CallKey>)
    requires Open(s, history)
    ensures s.forceStop <==> s.current != [] && RunLength(history + [s.current[0]]) >= FORCE_STOP
  {
    StoppedByFirst(history, s.current);
  }

  lemma StoppedByFirst(history: seq<CallKey>, current: seq<CallKey>)
    ensures Stopped(history, current) <==> current != [] && RunLength(history + [current[0]]) >= FORCE_STOP
  {
    if current != [] {
      assert current[..1] == [current[0]] && current[..0] == [];
      LongRunRepeats(history, current[0]);
      assert StopsAt(history, current, 0) <==> RunLength(history + [current[0]]) >= FORCE_STOP;
    }
    forall i | 0 < i < |current| ensures !StopsAt(history, current, i) {
      assert history + current[..i + 1] == (history + current[..i]) + [current[i]];
      LongRunRepeats(history + current[..i], current[i]);
      assert current[..i][i - 1] == current[i - 1];
      assert current[i - 1] in current[..i];
    }
  }

  /** A run of more than one call ends in a repetition. */
  lemma LongRunRepeats(history: seq<CallKey>, key: CallKey)
    ensures RunLength(history + [key]) > 1 ==> history != [] && history[|history| - 1] == key
  {
    RunLengthIsMaximal(history + [key]);
  }

  function IdOf(h: Handled): string {
    match h
    case Started(task) => task.callId
    case _ => h.callId
  }

  /** An accepted call is the execution of its key or waits for it; a refused one is told why. */
  ghost predicate AnsweredBy(call: Received, h: Handled, tasks: map<CallKey, Task>) {
    match call.verdict
    case UnknownTool => h == ToolNotFound(call.id)
    case Malformed => h == ParseError(call.id)
    case AcceptedAs(key) => key in tasks && (h == Started(tasks[key]) || h == Duplicate(call.id, tasks[key]))
  }

  /** Every registered task was started by some call, and no key was started twice. */
  ghost predicate StartedOnce(handled: seq<Handled>, tasks: map<CallKey, Task>) {
    && (forall k | k in tasks :: Started(tasks[k]) in handled)
    && (forall i | 0 <= i < |handled| && handled[i].Started? ::
          handled[i].task.key in tasks && handled[i].task == tasks[handled[i].task.key])
    && (forall i, j | 0 <= i < j < |handled| && handled[i].Started? && handled[j].Started? ::
          handled[i].task.key != handled[j].task.key)
  }

  lemma StartedOnceMore(handled: seq<Handled>, tasks: map<CallKey, Task>, task: Task)
    requires StartedOnce(handled, tasks) && task.key !in tasks
    ensures StartedOnce(handled + [Started(task)], tasks[task.key := task])
  {
    var all, tasks' := handled + [Started(task)], tasks[task.key := task];
    forall k | k in tasks' ensures Started(tasks'[k]) in all {
      assert all[|handled|] == Started(task);
      assert k in tasks ==> Started(tasks[k]) in handled;
    }
  }

  lemma StartedOnceStill(handled: seq<Handled>, tasks: map<CallKey, Task>, callId: string, original: Task)
    requires StartedOnce(handled, tasks)
    ensures StartedOnce(handled + [Duplicate(callId, original)], tasks)
  {
    forall k | k in tasks ensures Started(tasks[k]) in handled + [Duplicate(callId, original)] {
      assert Started(tasks[k]) in handled;
    }
  }

  lemma StartedOnceRefused(handled: seq<Handled>, tasks: map<CallKey, Task>, h: Handled)
    requires StartedOnce(handled, tasks) && (h.ToolNotFound? || h.ParseError?)
    ensures StartedOnce(handled + [h], tasks)
  {
    forall k | k in tasks ensures Started(tasks[k]) in handled + [h] {
      assert Started(tasks[k]) in handled;
    }
  }

  lemma HandleStartsOnce(s: State, handled: seq<Handled>, call: Received)
    requires StartedOnce(handled, s.tasks)
    ensures var (t, h) := Handle(s, call);
      && StartedOnce(handled + [h], t.tasks) && AnsweredBy(call, h, t.tasks) && IdOf(h) == call.id
      && (forall k | k in s.tasks :: k in t.tasks && t.tasks[k] == s.tasks[k])
  {
    match call.verdict
    case UnknownTool => StartedOnceRefused(handled, s.tasks, ToolNotFound(call.id));
    case Malformed => StartedOnceRefused(handled, s.tasks, ParseError(call.id));
    case AcceptedAs(key) =>
      if key in s.tasks {
        StartedOnceStill(handled, s.tasks, call.id, s.tasks[key]);
      } else {
        StartedOnceMore(handled, s.tasks, Task(call.id, key, RepeatOf(s, key).1));
      }
  }

  ghost predicate AllAnswered(calls: seq<Received>, handled: seq<Handled>, tasks: map<CallKey, Task>) {
    && |handled| == |calls|
    && forall i | 0 <= i < |calls| :: IdOf(handled[i]) == calls[i].id && AnsweredBy(calls[i], handled[i], tasks)
  }

  lemma AllAnsweredMore(calls: seq<Received>, handled: seq<Handled>, tasks: map<CallKey, Task>,
                        call: Received, h: Handled, tasks': map<CallKey, Task>)
    requires AllAnswered(calls, handled, tasks) && IdOf(h) == call.id && AnsweredBy(call, h, tasks')
    requires forall k | k in tasks :: k in tasks' && tasks'[k] == tasks[k]
    ensures AllAnswered(calls + [call], handled + [h], tasks')
  {
    forall i | 0 <= i < |calls| ensures AnsweredBy(calls[i], handled[i], tasks') {
      assert AnsweredBy(calls[i], handled[i], tasks);
    }
  }

  lemma OneMoreHandled(s: State, calls: seq<Received>, handled: seq<Handled>, call: Received)
    requires StartedOnce(handled, s.tasks) && AllAnswered(calls, handled, s.tasks)
    ensures var (t, h) := Handle(s, call);
      StartedOnce(handled + [h], t.tasks) && AllAnswered(calls + [call], handled + [h], t.tasks)
  {
    HandleStartsOnce(s, handled, call);
    AllAnsweredMore(calls, handled, s.tasks, call, Handle(s, call).1, Handle(s, call).0.tasks);
  }

  /**
   Each distinct key of a step starts exactly one execution, later calls of the key wait for that one, and every
   call is answered under its own id.
   */
  lemma {:induction false} OneExecutionPerKey(s: State, history: seq<CallKey>, calls: seq<Received>)
    requires Open(s, history) && s.current == []
    ensures var (t, handled) := HandleAll(s, calls);
      && t.tasks.Keys == SetOf(Accepted(calls))
      && StartedOnce(handled, t.tasks) && AllAnswered(calls, handled, t.tasks)
  {
    HandleAllKeepsOpen(s, history, calls);
    if calls != [] {
      var front, last := calls[..|calls| - 1], calls[|calls| - 1];
      OneExecutionPerKey(s, history, front);
      var (before, handled) := HandleAll(s, front);
      OneMoreHandled(before, front, handled, last);
      assert calls == front + [last];
    }
  }

  /** Every call gets a result of its own id, and duplicates get the output of the call they repeat. */
  lemma ResultsCarryTheirIds(s: State, history: seq<CallKey>, calls: seq<Received>,
                             outputs: CallKey -> Output, render: Reminder -> string, error: Handled -> Output)
    requires Open(s, history) && s.current == []
    ensures var (t, handled) := HandleAll(s, calls);
      && |handled| == |calls|
      && (forall i | 0 <= i < |calls| :: ResultOf(handled[i], outputs, render, error).callId == calls[i].id)
      && (forall i, j | 0 <= i < j < |calls| && calls[i].verdict.AcceptedAs? && calls[i].verdict == calls[j].verdict ::
            ResultOf(handled[i], outputs, render, error).output == ResultOf(handled[j], outputs, render, error).output)
  {
    OneExecutionPerKey(s, history, calls);
    var (t, handled) := HandleAll(s, calls);
    forall i, j | 0 <= i < j < |calls| && calls[i].verdict.AcceptedAs? && calls[i].verdict == calls[j].verdict
      ensures ResultOf(handled[i], outputs, render, error).output == ResultOf(handled[j], outputs, render, error).output
    {
      assert AnsweredBy(calls[i], handled[i], t.tasks) && AnsweredBy(calls[j], handled[j], t.tasks);
    }
  }

  // ---------------------------------------------------------------- runs of steps

  /** Aborted attempts at a step, then the attempt that ends. `reset` says that the caller starts a new turn. */
  datatype Step = Step(reset: bool, aborted: seq<seq<ToolCall>>, calls: seq<ToolCall>)

  function Attempts(s: State, tools: set<string>, previous: seq<CallKey>, attempts: seq<seq<ToolCall>>): State {
    if attempts == [] then s
    else
      var before := Attempts(s, tools, previous, attempts[..|attempts| - 1]);
      HandleAll(BeginStep(before, previous), ReceiveAll(tools, attempts[|attempts| - 1])).0
  }

  /** The state after a run of steps and the calls the last `EndStep` returned. */
  function Run(tools: set<string>, steps: seq<Step>): (State, seq<CallKey>) {
    if steps == [] then (FRESH, [])
    else
      var (before, returned) := Run(tools, steps[..|steps| - 1]);
      var step := steps[|steps| - 1];
      var previous := if step.reset then [] else returned;
      var t := EndStep(Attempts(before, tools, previous, step.aborted + [step.calls]));
      (t, t.current)
  }

  function AcceptedKeys(tools: set<string>, calls: seq<ToolCall>): seq<CallKey> {
    Accepted(ReceiveAll(tools, calls))
  }

  /** The accepted calls since the last reset; a step without calls resets the next one. */
  function History(tools: set<string>, steps: seq<Step>): seq<CallKey> {
    if steps == [] then []
    else
      var step := steps[|steps| - 1];
      Base(tools, steps[..|steps| - 1], step) + AcceptedKeys(tools, step.calls)
  }

  /** The history a step starts with. */
  function Base(tools: set<string>, before: seq<Step>, step: Step): seq<CallKey>
    decreases |before|, 0
  {
    if step.reset || before == [] || AcceptedKeys(tools, before[|before| - 1].calls) == [] then []
    else
      var last := before[|before| - 1];
      Base(tools, before[..|before| - 1], last) + AcceptedKeys(tools, last.calls)
  }

  /** Renormalizing the key of an accepted call, or of a call that was normalized before, changes nothing. */
  ghost predicate Normal(key: CallKey) {
    CallKeyOf(key.0, key.1) == key
  }

  lemma {:induction false} AcceptedAreNormal(tools: set<string>, calls: seq<ToolCall>)
    ensures forall k | k in AcceptedKeys(tools, calls) :: Normal(k)
  {
    if calls != [] {
      var front, last := calls[..|calls| - 1], calls[|calls| - 1];
      AcceptedAreNormal(tools, front);
      assert ReceiveAll(tools, calls)[..|front|] == ReceiveAll(tools, front);
      VerdictIsNormal(tools, last);
    }
  }

  lemma VerdictIsNormal(tools: set<string>, call: ToolCall)
    ensures VerdictOf(tools, call).AcceptedAs? ==> Normal(VerdictOf(tools, call).key)
  {
    CanonicalTextIsStable(if call.arguments == "" then "{}" else call.arguments);
  }

  lemma RenormalizingKeepsKeys(keys: seq<CallKey>)
    requires forall k | k in keys :: Normal(k)
    ensures KeysOf(keys) == keys
  {
    forall i | 0 <= i < |keys| ensures KeysOf(keys)[i] == keys[i] {
      assert keys[i] in keys;
    }
  }

  /** Beginning a step with the calls of the step before opens it on the history. */
  lemma BeginOpens(s: State, history: seq<CallKey>, previous: seq<CallKey>)
    requires forall k | k in previous :: Normal(k)
    requires previous != [] ==> Remembers(s, history) && SetOf(previous) <= SetOf(history)
    ensures var t := BeginStep(s, previous);
      Open(t, if previous == [] then [] else history) && t.current == []
  {
    RenormalizingKeepsKeys(previous);
    if previous != [] {
      assert previous[0] in SetOf(previous);
      assert history != [];
    }
  }

  /** A new toolset that is handed the calls of an earlier step remembers exactly those. */
  lemma BeginOnFreshToolset(previousCalls: seq<(string, string)>)
    ensures Open(BeginStep(FRESH, previousCalls), KeysOf(previousCalls))
  {
    var keys := KeysOf(previousCalls);
    AdvanceIsRunLength([], keys);
    assert [] + keys == keys;
  }

  lemma {:induction false} AttemptsOpen(s: State, history: seq<CallKey>, tools: set<string>, previous: seq<CallKey>,
                                        attempts: seq<seq<ToolCall>>)
    requires attempts != []
    requires forall k | k in previous :: Normal(k)
    requires previous != [] ==> Remembers(s, history) && SetOf(previous) <= SetOf(history)
    ensures var t := Attempts(s, tools, previous, attempts);
      Open(t, if previous == [] then [] else history) && t.current == AcceptedKeys(tools, attempts[|attempts| - 1])
  {
    var front, last := attempts[..|attempts| - 1], attempts[|attempts| - 1];
    if front != [] {
      AttemptsOpen(s, history, tools, previous, front);
    }
    var before := Attempts(s, tools, previous, front);
    BeginOpens(before, history, previous);
    HandleAllKeepsOpen(BeginStep(before, previous), if previous == [] then [] else history, ReceiveAll(tools, last));
  }

  lemma EndStepRemembers(s: State, history: seq<CallKey>)
    requires Open(s, history)
    ensures var t := EndStep(s);
      Remembers(t, history + s.current) && t.current == s.current && t.forceStop == s.forceStop
  {
    AdvanceIsRunLength(history, s.current);
    assert SetOf(history + s.current) == SetOf(history) + SetOf(s.current);
  }

  /**
   After any run of steps, retries included, the stored streak and seen set are those of the whole history since
   the last reset, whatever the aborted attempts called.
   */
  lemma {:induction false} RunRemembersHistory(tools: set<string>, steps: seq<Step>)
    ensures var (s, returned) := Run(tools, steps);
      && Remembers(s, History(tools, steps))
      && (steps != [] ==> returned == AcceptedKeys(tools, steps[|steps| - 1].calls))
      && (steps == [] ==> returned == [])
    decreases |steps|, 0
  {
    if steps != [] {
      var front, step := steps[..|steps| - 1], steps[|steps| - 1];
      LastStepIsOpen(tools, front, step);
      EndStepRemembers(LastAttempt(tools, front, step), Base(tools, front, step));
    }
  }

  /** The state of the last step just before it ends. */
  function LastAttempt(tools: set<string>, front: seq<Step>, step: Step): State {
    var (before, returned) := Run(tools, front);
    Attempts(before, tools, if step.reset then [] else returned, step.aborted + [step.calls])
  }

  lemma {:induction false} LastStepIsOpen(tools: set<string>, front: seq<Step>, step: Step)
    ensures Open(LastAttempt(tools, front, step), Base(tools, front, step))
    ensures LastAttempt(tools, front, step).current == AcceptedKeys(tools, step.calls)
    decreases |front|, 1
  {
    RunRemembersHistory(tools, front);
    var (before, returned) := Run(tools, front);
    var previous := if step.reset then [] else returned;
    if front != [] {
      AcceptedAreNormal(tools, front[|front| - 1].calls);
      var history := History(tools, front);
      assert SetOf(returned) <= SetOf(history);
      assert history == Base(tools, front[..|front| - 1], front[|front| - 1]) + returned;
    }
    AttemptsOpen(before, History(tools, front), tools, previous, step.aborted + [step.calls]);
  }

  /** The turn is stopped after a run exactly when the last step's first call made the run twelve or more long. */
  lemma StopAfterRun(tools: set<string>, front: seq<Step>, step: Step)
    ensures var calls := AcceptedKeys(tools, step.calls);
      Run(tools, front + [step]).0.forceStop <==>
        calls != [] && RunLength(Base(tools, front, step) + [calls[0]]) >= FORCE_STOP
  {
    assert (front + [step])[..|front|] == front;
    LastStepIsOpen(tools, front, step);
    ForceStopIsDecidedByFirstCall(LastAttempt(tools, front, step), Base(tools, front, step));
    EndStepRemembers(LastAttempt(tools, front, step), Base(tools, front, step));
  }

  /** A step begins without calls, executions or flags; what it is given counts as seen, and as nothing if it is given none. */
  lemma BeginForgetsTheStep(s: State, previousCalls: seq<(string, string)>)
    ensures var t := BeginStep(s, previousCalls);
      && t.previous == KeysOf(previousCalls) && t.current == [] && t.tasks == map[]
      && !t.closed && !t.dedupTriggered && !t.forceStop
      && (previousCalls == [] ==> t.seen == {} && t.streakKey.None? && t.streakCount == 0)
      && (previousCalls != [] ==>
            && t.seen == s.seen + SetOf(KeysOf(previousCalls))
            && (s.streakKey.Some? ==> t.streakKey == s.streakKey && t.streakCount == s.streakCount))
  {
  }

  /** Ending a step twice is ending it once. */
  lemma EndingTwice(s: State)
    ensures EndStep(EndStep(s)) == EndStep(s) && EndStep(s).closed
  {
  }

  /** An execution without a reminder yields what the tool returned; one with a reminder yields it with the reminder. */
  lemma OutputIsTheTools(task: Task, outputs: CallKey -> Output, render: Reminder -> string, error: Handled -> Output)
    ensures task.reminder == NoReminder ==> ResultOf(Started(task), outputs, render, error).output == outputs(task.key)
    ensures task.reminder != NoReminder && outputs(task.key).Text? ==>
      ResultOf(Started(task), outputs, render, error).output == Text(outputs(task.key).text + render(task.reminder))
    ensures forall id :: ResultOf(Duplicate(id, task), outputs, render, error).output
                      == ResultOf(Started(task), outputs, render, error).output
  {
  }
}
