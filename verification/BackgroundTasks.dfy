/**
 Background tasks as records shared by three parties: the manager, the in-process runner of an agent task and the
 separate worker process of a shell task. Every manager method, every stretch of a runner between two suspension
 points and every read or write of the worker together with the record it edits is one event.
 */
module BackgroundTasks {
  import opened Wrappers

  type TaskId = string

  datatype Kind = Bash | Agent

  datatype Status = Created | Starting | Running | AwaitingApproval | Completed | Failed | Killed | Lost

  /** `complete` says that the command, the shell and the working directory are set. */
  datatype Spec = Spec(kind: Kind, createdAt: int, complete: bool)

  datatype Runtime = Runtime(
    status: Status,
    workerPid: Option<int>,
    childPid: Option<int>,
    childPgid: Option<int>,
    startedAt: Option<int>,
    heartbeatAt: Option<int>,
    updatedAt: int,
    finishedAt: Option<int>,
    exitCode: Option<int>,
    interrupted: bool,
    timedOut: bool,
    failureReason: Option<string>)

  datatype Control = Control(killRequestedAt: Option<int>, killReason: string)

  datatype Task = Task(spec: Spec, runtime: Runtime, control: Control)

  predicate IsTerminal(status: Status) {
    status == Completed || status == Failed || status == Killed || status == Lost
  }

  predicate HasEnded(tasks: map<TaskId, Task>, id: TaskId) {
    id in tasks && IsTerminal(tasks[id].runtime.status)
  }

  // ---- Edits of a runtime record ----

  function NewRuntime(now: int): Runtime {
    Runtime(Created, None, None, None, None, None, now, None, None, false, false, None)
  }

  function Finished(r: Runtime, status: Status, now: int, reason: Option<string>): Runtime {
    r.(status := status, finishedAt := Some(now), updatedAt := now, failureReason := reason)
  }

  datatype Marking =
    | MarkRunning
    | MarkAwaitingApproval(reason: string)
    | MarkCompleted
    | MarkFailed(reason: string)
    | MarkTimedOut(reason: string)
    | MarkKilled(reason: string)

  /** The manager's `_mark_task_*` methods: none of them touches a terminal record. */
  function Mark(r: Runtime, m: Marking, now: int): Runtime {
    if IsTerminal(r.status) then r
    else match m
      case MarkRunning => r.(status := Running, updatedAt := now, heartbeatAt := Some(now), failureReason := None)
      case MarkAwaitingApproval(reason) =>
        r.(status := AwaitingApproval, updatedAt := now, failureReason := Some(reason))
      case MarkCompleted => Finished(r, Completed, now, None)
      case MarkFailed(reason) => Finished(r, Failed, now, Some(reason))
      case MarkTimedOut(reason) => Finished(r, Failed, now, Some(reason)).(interrupted := true, timedOut := true)
      case MarkKilled(reason) => Finished(r, Killed, now, Some(reason)).(interrupted := true)
  }

  predicate IsClosing(m: Marking) {
    !m.MarkRunning? && !m.MarkAwaitingApproval?
  }

  /** How the run of an agent task can come back to its runner. */
  datatype RunResult =
    | Response
    | NoOutput
    | Failure(message: string)
    | TaskTimeout
    | InternalTimeout(message: string)
    | Cancellation
    | RunCancellation
    | Raised(message: string)

  /** The marking on each exit path of an agent runner: every path ends the task. */
  function ExitMarking(result: RunResult): (m: Marking)
    ensures IsClosing(m)
    ensures m.MarkCompleted? <==> result.Response?
    ensures m.MarkKilled? <==> result.Cancellation? || result.RunCancellation?
  {
    match result
    case Response => MarkCompleted
    case NoOutput => MarkFailed("Agent completed but produced no output.")
    case Failure(message) => MarkFailed(message)
    case TaskTimeout => MarkTimedOut("Agent task timed out")
    case InternalTimeout(message) => MarkFailed(message)
    case Cancellation => MarkKilled("Stopped by TaskStop")
    case RunCancellation => MarkKilled("Run was cancelled")
    case Raised(message) => MarkFailed(message)
  }

  /** How the subagent instance is left. */
  datatype InstanceStatus = IdleInstance | FailedInstance | KilledInstance

  /** The instance ends as its task does: idle when completed, killed when killed, failed otherwise. */
  function InstanceAfter(result: RunResult): (status: InstanceStatus)
    ensures status == IdleInstance <==> ExitMarking(result).MarkCompleted?
    ensures status == KilledInstance <==> ExitMarking(result).MarkKilled?
  {
    match result
    case Response => IdleInstance
    case Cancellation => KilledInstance
    case RunCancellation => KilledInstance
    case _ => FailedInstance
  }

  /** What the manager writes after the worker process was started, unless the worker was faster. */
  function Stamp(r: Runtime, pid: int, now: int): Runtime {
    if r.finishedAt.None? && (r.status == Created || (r.status == Starting && r.workerPid.None?))
    then r.(status := Starting, workerPid := Some(pid), updatedAt := now) else r
  }

  /** An agent task ends at once; the worker of a shell task is asked to end it. */
  function KillTask(t: Task, reason: string, now: int): Task {
    if IsTerminal(t.runtime.status) then t
    else if t.spec.kind == Agent then t.(runtime := Mark(t.runtime, MarkKilled(reason), now))
    else t.(control := Control(Some(now), reason))
  }

  /** Python's `or` on an optional time: zero counts as unset. */
  function Or(time: Option<int>, otherwise: int): int {
    if time.Some? && time.value != 0 then time.value else otherwise
  }

  function LastProgress(t: Task): int {
    Or(t.runtime.heartbeatAt, Or(t.runtime.startedAt, Or(Some(t.runtime.updatedAt), t.spec.createdAt)))
  }

  predicate IsAbandoned(t: Task, live: bool, now: int, staleAfter: int) {
    && !IsTerminal(t.runtime.status)
    && (if t.spec.kind == Agent then !live else now - LastProgress(t) > staleAfter)
  }

  function KillReason(c: Control, otherwise: string): Option<string> {
    Some(if c.killReason != "" then c.killReason else otherwise)
  }

  /** Closing a task that nobody works on any more. */
  function RecoverTask(t: Task, live: bool, now: int, staleAfter: int): Task {
    if !IsAbandoned(t, live, now, staleAfter) then t
    else if t.spec.kind == Agent then
      t.(runtime := Finished(t.runtime, Lost, now, Some("In-process background agent is no longer running")))
    else if t.control.killRequestedAt.Some? then
      t.(runtime := Finished(t.runtime, Killed, now, KillReason(t.control, "Killed during recovery")).(
           interrupted := true))
    else
      t.(runtime := Finished(t.runtime, Lost, now, Some(
           if t.runtime.heartbeatAt.None? then "Background worker never heartbeat after startup"
           else "Background worker heartbeat expired")))
  }

  function RecoverTasks(tasks: map<TaskId, Task>, live: set<TaskId>, now: int, staleAfter: int): map<TaskId, Task> {
    map id | id in tasks :: RecoverTask(tasks[id], id in live, now, staleAfter)
  }

  // ---- The worker's writes ----

  function WorkerStarted(r: Runtime, pid: int, now: int): Runtime {
    r.(status := Starting, workerPid := Some(pid), startedAt := Some(now), heartbeatAt := Some(now), updatedAt := now)
  }

  /** The command leads a process group of its own, except on Windows. */
  function WorkerRunning(r: Runtime, pid: int, grouped: bool, now: int): Runtime {
    r.(status := Running, childPid := Some(pid), childPgid := if grouped then Some(pid) else None,
       updatedAt := now, heartbeatAt := Some(now))
  }

  function Heartbeat(r: Runtime, now: int): Runtime {
    if r.finishedAt.Some? then r else r.(heartbeatAt := Some(now), updatedAt := now)
  }

  /** The worker's last write starts from the record as it stood when the command was started. */
  function WorkerFinished(lastKnown: Runtime, c: Control, now: int, timedOut: bool, exitCode: int): Runtime {
    var r := lastKnown.(exitCode := Some(exitCode), heartbeatAt := Some(now));
    if timedOut then Finished(r, Failed, now, Some("Command timed out")).(interrupted := true, timedOut := true)
    else if c.killRequestedAt.Some? then Finished(r, Killed, now, KillReason(c, "Killed")).(interrupted := true)
    else if exitCode == 0 then Finished(r, Completed, now, None)
    else Finished(r, Failed, now, Some("Command failed"))
  }

  // ---- The system ----

  datatype Worker = Launched | Begun(copy: Runtime) | Spawning | Supervising(lastKnown: Runtime) | Exited

  /** `Gone(settled)` is a runner that has left the live table, after marking its task's end or without. */
  datatype Runner = Scheduled | Active | Closing | Gone(settled: bool)

  /** `closed` remembers the tasks that a recovery closed; nothing in the system reads it. */
  datatype State = State(
    tasks: map<TaskId, Task>,
    live: set<TaskId>,
    workers: map<TaskId, Worker>,
    runners: map<TaskId, Runner>,
    closed: set<TaskId>,
    now: int)

  datatype Settings = Settings(maxRunning: nat, staleAfter: int)

  datatype Event =
    | DoCreateBash(id: TaskId, complete: bool, launches: bool, reason: string)
    | DoStamp(id: TaskId, pid: int)
    | DoCreateAgent(id: TaskId)
    | DoKill(id: TaskId, reason: string)
    | DoRecover(root: bool)
    | DoMark(id: TaskId, marking: Marking)
    | DoRunnerStart(id: TaskId)
    | DoRunnerCancelledEarly(id: TaskId)
    | DoRunnerExit(id: TaskId, marking: Marking)
    | DoRunnerPop(id: TaskId)
    | DoWorkerBegin(id: TaskId, pid: int)
    | DoWorkerCheck(id: TaskId)
    | DoWorkerSpawned(id: TaskId, pid: int, grouped: bool)
    | DoWorkerFail(id: TaskId, reason: string)
    | DoWorkerHeartbeat(id: TaskId)
    | DoWorkerFinish(id: TaskId, timedOut: bool, exitCode: int)
    | DoWorkerDie(id: TaskId)
    | DoRestart
    | DoTick(later: nat)

  function Opened(now: int): State {
    State(map[], {}, map[], map[], {}, now)
  }

  function ActiveIn(tasks: map<TaskId, Task>): set<TaskId> {
    set id | id in tasks && !IsTerminal(tasks[id].runtime.status)
  }

  function Active(s: State): set<TaskId> {
    ActiveIn(s.tasks)
  }

  predicate IsAgent(s: State, id: TaskId) {
    id in s.tasks && s.tasks[id].spec.kind == Agent && id in s.runners
  }

  predicate IsBash(s: State, id: TaskId) {
    id in s.tasks && s.tasks[id].spec.kind == Bash && id in s.workers
  }

  /** What can happen to a task at all; creating one is also subject to the limit. */
  predicate Possible(s: State, e: Event) {
    match e
    case DoCreateBash(id, _, _, _) => id !in s.tasks
    case DoStamp(id, _) => IsBash(s, id)
    case DoCreateAgent(id) => id !in s.tasks
    case DoKill(id, _) => IsAgent(s, id) || IsBash(s, id)
    case DoRecover(_) => true
    case DoMark(id, m) => IsAgent(s, id) && (m.MarkRunning? || m.MarkAwaitingApproval?)
    case DoRunnerStart(id) => IsAgent(s, id) && s.runners[id] == Scheduled
    case DoRunnerCancelledEarly(id) => IsAgent(s, id) && s.runners[id] == Scheduled
    case DoRunnerExit(id, m) => IsAgent(s, id) && s.runners[id] == Runner.Active && IsClosing(m)
    case DoRunnerPop(id) => IsAgent(s, id) && s.runners[id] == Closing
    case DoWorkerBegin(id, _) => IsBash(s, id) && s.workers[id] == Launched
    case DoWorkerCheck(id) => IsBash(s, id) && s.workers[id].Begun?
    case DoWorkerSpawned(id, _, _) => IsBash(s, id) && s.workers[id] == Spawning
    case DoWorkerFail(id, _) => IsBash(s, id) && (s.workers[id] == Spawning || s.workers[id].Supervising?)
    case DoWorkerHeartbeat(id) => IsBash(s, id) && s.workers[id].Supervising?
    case DoWorkerFinish(id, _, _) => IsBash(s, id) && s.workers[id].Supervising?
    case DoWorkerDie(id) => IsBash(s, id)
    case DoRestart => true
    case DoTick(_) => true
  }

  predicate IsCreation(e: Event) {
    e.DoCreateBash? || e.DoCreateAgent?
  }

  predicate Enabled(g: Settings, s: State, e: Event) {
    Possible(s, e) && (IsCreation(e) ==> |Active(s)| < g.maxRunning)
  }

  function Write(s: State, id: TaskId, r: Runtime): State
    requires id in s.tasks
  {
    s.(tasks := s.tasks[id := s.tasks[id].(runtime := r)])
  }

  /** A worker's last write. */
  function WriteLast(s: State, id: TaskId, r: Runtime): State
    requires id in s.tasks
  {
    s.(tasks := s.tasks[id := s.tasks[id].(runtime := r)], workers := s.workers[id := Exited])
  }

  /** The worker's kill check and spec check before it starts the command. */
  function WorkerChecked(s: State, id: TaskId, copy: Runtime): State
    requires id in s.tasks
  {
    var t := s.tasks[id];
    if t.control.killRequestedAt.Some? then
      WriteLast(s, id, Finished(copy, Killed, s.now, KillReason(t.control, "Killed before command start")).(
                         interrupted := true))
    else if !t.spec.complete then
      WriteLast(s, id, Finished(copy, Failed, s.now, Some("Task spec is incomplete for bash worker")))
    else s.(workers := s.workers[id := Spawning])
  }

  function Next(g: Settings, s: State, e: Event): State
    requires Possible(s, e)
  {
    match e
    case DoCreateBash(id, complete, launches, reason) =>
      var task := Task(Spec(Bash, s.now, complete), NewRuntime(s.now), Control(None, ""));
      if launches then s.(tasks := s.tasks[id := task], workers := s.workers[id := Launched])
      else s.(tasks := s.tasks[id := task.(runtime := Finished(task.runtime, Failed, s.now, Some(reason)))],
              workers := s.workers[id := Exited])
    case DoStamp(id, pid) => Write(s, id, Stamp(s.tasks[id].runtime, pid, s.now))
    case DoCreateAgent(id) =>
      var task := Task(Spec(Agent, s.now, true), NewRuntime(s.now).(status := Starting), Control(None, ""));
      s.(tasks := s.tasks[id := task], live := s.live + {id}, runners := s.runners[id := Scheduled])
    case DoKill(id, reason) => s.(tasks := s.tasks[id := KillTask(s.tasks[id], reason, s.now)])
    case DoRecover(root) =>
      var live := if root then s.live else {};
      s.(tasks := RecoverTasks(s.tasks, live, s.now, g.staleAfter),
         closed := s.closed + set id | id in s.tasks && IsAbandoned(s.tasks[id], id in live, s.now, g.staleAfter))
    case DoMark(id, m) => Write(s, id, Mark(s.tasks[id].runtime, m, s.now))
    case DoRunnerStart(id) =>
      Write(s, id, Mark(s.tasks[id].runtime, MarkRunning, s.now)).(runners := s.runners[id := Runner.Active])
    case DoRunnerCancelledEarly(id) => s.(runners := s.runners[id := Gone(false)], live := s.live - {id})
    case DoRunnerExit(id, m) =>
      Write(s, id, Mark(s.tasks[id].runtime, m, s.now)).(runners := s.runners[id := Closing])
    case DoRunnerPop(id) => s.(runners := s.runners[id := Gone(true)], live := s.live - {id})
    case DoWorkerBegin(id, pid) =>
      var r := WorkerStarted(s.tasks[id].runtime, pid, s.now);
      Write(s, id, r).(workers := s.workers[id := Begun(r)])
    case DoWorkerCheck(id) => WorkerChecked(s, id, s.workers[id].copy)
    case DoWorkerSpawned(id, pid, grouped) =>
      var r := WorkerRunning(s.tasks[id].runtime, pid, grouped, s.now);
      Write(s, id, r).(workers := s.workers[id := Supervising(r)])
    case DoWorkerFail(id, reason) =>
      WriteLast(s, id, Finished(s.tasks[id].runtime, Failed, s.now, Some(reason)))
    case DoWorkerHeartbeat(id) => Write(s, id, Heartbeat(s.tasks[id].runtime, s.now))
    case DoWorkerFinish(id, timedOut, exitCode) =>
      WriteLast(s, id, WorkerFinished(s.workers[id].lastKnown, s.tasks[id].control, s.now, timedOut, exitCode))
    case DoWorkerDie(id) => s.(workers := s.workers[id := Exited])
    case DoRestart =>
      s.(live := {}, runners := map id | id in s.runners :: Gone(s.runners[id] == Closing || s.runners[id] == Gone(true)))
    case DoTick(later) => s.(now := s.now + later)
  }

  predicate Runs(g: Settings, s: State, events: seq<Event>)
    decreases |events|
  {
    events == [] || (Enabled(g, s, events[0]) && Runs(g, Next(g, s, events[0]), events[1..]))
  }

  function Run(g: Settings, s: State, events: seq<Event>): State
    requires Runs(g, s, events)
    decreases |events|
  {
    if events == [] then s else Run(g, Next(g, s, events[0]), events[1..])
  }

  /** A worker writes the record of a task that a recovery has already closed. */
  predicate IsLateWrite(s: State, e: Event) {
    match e
    case DoWorkerBegin(id, _) => id in s.closed
    case DoWorkerSpawned(id, _, _) => id in s.closed
    case DoWorkerFail(id, _) => id in s.closed
    case DoWorkerFinish(id, _, _) => id in s.closed
    case DoWorkerCheck(id) =>
      && id in s.closed && id in s.tasks
      && (s.tasks[id].control.killRequestedAt.Some? || !s.tasks[id].spec.complete)
    case _ => false
  }

  predicate WritesInTime(g: Settings, s: State, events: seq<Event>)
    requires Runs(g, s, events)
    decreases |events|
  {
    events == [] || (!IsLateWrite(s, events[0]) && WritesInTime(g, Next(g, s, events[0]), events[1..]))
  }

  predicate IsWorkerEvent(e: Event) {
    || e.DoWorkerBegin? || e.DoWorkerCheck? || e.DoWorkerSpawned? || e.DoWorkerFail? || e.DoWorkerHeartbeat?
    || e.DoWorkerFinish? || e.DoWorkerDie?
  }

  // ---- What every run keeps ----

  /** A task has a worker or a runner by its kind, and is in the live table exactly while its runner is not gone. */
  ghost predicate HasShape(s: State, id: TaskId) {
    && (id in s.tasks ==> IsAgent(s, id) || IsBash(s, id))
    && (id in s.workers ==> IsBash(s, id))
    && (id in s.runners ==> IsAgent(s, id))
    && (id in s.live <==> id in s.runners && !s.runners[id].Gone?)
    && (id in s.closed ==> id in s.tasks)
  }

  predicate IsOver(s: State, id: TaskId) {
    HasEnded(s.tasks, id)
  }

  /** A terminal record has a finishing time, and an open task whose record has one was closed by a recovery. */
  ghost predicate FinishTimeFits(s: State, id: TaskId) {
    && (IsOver(s, id) ==> s.tasks[id].runtime.finishedAt.Some?)
    && (id in s.tasks && s.tasks[id].runtime.finishedAt.Some? ==> IsOver(s, id) || id in s.closed)
  }

  /** Only a recovery ends a task behind its worker's back; a runner settles its task before it leaves. */
  ghost predicate EndsProperly(s: State, id: TaskId) {
    && (IsOver(s, id) && id in s.workers ==> s.workers[id].Exited? || id in s.closed)
    && (id in s.runners && (s.runners[id] == Closing || s.runners[id] == Gone(true)) ==> IsOver(s, id))
    && (id in s.runners && id in s.closed ==> IsOver(s, id))
  }

  ghost predicate TaskInv(s: State, id: TaskId) {
    HasShape(s, id) && FinishTimeFits(s, id) && EndsProperly(s, id)
  }

  /** The tasks that count against the limit whatever the workers of closed tasks do. */
  function Open(s: State): set<TaskId> {
    Active(s) - s.closed
  }

  ghost predicate Inv(g: Settings, s: State) {
    (forall id :: TaskInv(s, id)) && |Open(s)| <= g.maxRunning
  }

  lemma CreationKeepsTask(g: Settings, s: State, e: Event, id: TaskId)
    requires TaskInv(s, id) && Possible(s, e) && IsCreation(e)
    ensures TaskInv(Next(g, s, e), id)
  {
  }

  lemma ManagerKeepsTask(g: Settings, s: State, e: Event, id: TaskId)
    requires TaskInv(s, id) && Possible(s, e) && (e.DoStamp? || e.DoKill? || e.DoRestart? || e.DoTick?)
    ensures TaskInv(Next(g, s, e), id)
  {
  }

  lemma RecoveryKeepsTask(g: Settings, s: State, e: Event, id: TaskId)
    requires TaskInv(s, id) && Possible(s, e) && e.DoRecover?
    ensures TaskInv(Next(g, s, e), id)
  {
  }

  lemma RunnerKeepsTask(g: Settings, s: State, e: Event, id: TaskId)
    requires TaskInv(s, id) && Possible(s, e)
    requires e.DoMark? || e.DoRunnerStart? || e.DoRunnerCancelledEarly? || e.DoRunnerExit? || e.DoRunnerPop?
    ensures TaskInv(Next(g, s, e), id)
  {
  }

  lemma StartKeepsTask(g: Settings, s: State, e: Event, id: TaskId)
    requires TaskInv(s, id) && Possible(s, e) && (e.DoWorkerBegin? || e.DoWorkerSpawned?)
    ensures TaskInv(Next(g, s, e), id)
  {
  }

  lemma LastWriteKeepsTask(s: State, written: TaskId, r: Runtime, id: TaskId)
    requires TaskInv(s, id) && IsBash(s, written) && IsTerminal(r.status) && r.finishedAt.Some?
    ensures TaskInv(WriteLast(s, written, r), id)
  {
  }

  lemma CheckKeepsTask(g: Settings, s: State, e: Event, id: TaskId)
    requires TaskInv(s, id) && Possible(s, e) && e.DoWorkerCheck?
    ensures TaskInv(Next(g, s, e), id)
  {
    var t, copy := s.tasks[e.id], s.workers[e.id].copy;
    if t.control.killRequestedAt.Some? {
      LastWriteKeepsTask(s, e.id, Finished(copy, Killed, s.now, KillReason(t.control, "Killed before command start")).(
                                    interrupted := true), id);
    } else if !t.spec.complete {
      LastWriteKeepsTask(s, e.id, Finished(copy, Failed, s.now, Some("Task spec is incomplete for bash worker")), id);
    }
  }

  lemma WorkerKeepsTask(g: Settings, s: State, e: Event, id: TaskId)
    requires TaskInv(s, id) && Possible(s, e)
    requires e.DoWorkerFail? || e.DoWorkerHeartbeat? || e.DoWorkerFinish? || e.DoWorkerDie?
    ensures TaskInv(Next(g, s, e), id)
  {
  }

  lemma StepKeepsTask(g: Settings, s: State, e: Event, id: TaskId)
    requires TaskInv(s, id) && Possible(s, e)
    ensures TaskInv(Next(g, s, e), id)
  {
    match e {
      case DoCreateBash(_, _, _, _) => CreationKeepsTask(g, s, e, id);
      case DoCreateAgent(_) => CreationKeepsTask(g, s, e, id);
      case DoStamp(_, _) => ManagerKeepsTask(g, s, e, id);
      case DoKill(_, _) => ManagerKeepsTask(g, s, e, id);
      case DoRestart => ManagerKeepsTask(g, s, e, id);
      case DoTick(_) => ManagerKeepsTask(g, s, e, id);
      case DoRecover(_) => RecoveryKeepsTask(g, s, e, id);
      case DoMark(_, _) => RunnerKeepsTask(g, s, e, id);
      case DoRunnerStart(_) => RunnerKeepsTask(g, s, e, id);
      case DoRunnerCancelledEarly(_) => RunnerKeepsTask(g, s, e, id);
      case DoRunnerExit(_, _) => RunnerKeepsTask(g, s, e, id);
      case DoRunnerPop(_) => RunnerKeepsTask(g, s, e, id);
      case DoWorkerBegin(_, _) => StartKeepsTask(g, s, e, id);
      case DoWorkerCheck(_) => CheckKeepsTask(g, s, e, id);
      case DoWorkerSpawned(_, _, _) => StartKeepsTask(g, s, e, id);
      case DoWorkerFail(_, _) => WorkerKeepsTask(g, s, e, id);
      case DoWorkerHeartbeat(_) => WorkerKeepsTask(g, s, e, id);
      case DoWorkerFinish(_, _, _) => WorkerKeepsTask(g, s, e, id);
      case DoWorkerDie(_) => WorkerKeepsTask(g, s, e, id);
    }
  }

  lemma Fewer(a: set<TaskId>, b: set<TaskId>)
    requires a <= b
    ensures |a| <= |b|
  {
    if a != {} {
      var x :| x in a;
      Fewer(a - {x}, b - {x});
    }
  }

  lemma StepOpensAtMostTheCreatedByWorker(g: Settings, s: State, e: Event, id: TaskId)
    requires TaskInv(s, id) && Possible(s, e) && id in Open(Next(g, s, e))
    requires IsWorkerEvent(e)
    ensures id in Open(s) || (IsCreation(e) && id == e.id)
  {
  }

  lemma StepOpensAtMostTheCreatedByOthers(g: Settings, s: State, e: Event, id: TaskId)
    requires TaskInv(s, id) && Possible(s, e) && id in Open(Next(g, s, e))
    requires !IsWorkerEvent(e)
    ensures id in Open(s) || (IsCreation(e) && id == e.id)
  {
  }

  /** Every event but a creation leaves the open tasks open or closes some; a creation adds one. */
  lemma StepOpensAtMostTheCreated(g: Settings, s: State, e: Event, id: TaskId)
    requires TaskInv(s, id) && Possible(s, e) && id in Open(Next(g, s, e))
    ensures id in Open(s) || (IsCreation(e) && id == e.id)
  {
    if IsWorkerEvent(e) {
      StepOpensAtMostTheCreatedByWorker(g, s, e, id);
    } else {
      StepOpensAtMostTheCreatedByOthers(g, s, e, id);
    }
  }

  lemma NextKeepsInv(g: Settings, s: State, e: Event)
    requires Inv(g, s) && Enabled(g, s, e)
    ensures Inv(g, Next(g, s, e))
  {
    var s' := Next(g, s, e);
    forall id ensures TaskInv(s', id) {
      StepKeepsTask(g, s, e, id);
    }
    forall id | id in Open(s') ensures id in Open(s) || (IsCreation(e) && id == e.id) {
      StepOpensAtMostTheCreated(g, s, e, id);
    }
    if IsCreation(e) {
      Fewer(Open(s'), Open(s) + {e.id});
      Fewer(Open(s), Active(s));
    } else {
      Fewer(Open(s'), Open(s));
    }
  }

  lemma StepFreezesTerminalByWorker(g: Settings, s: State, e: Event, id: TaskId)
    requires TaskInv(s, id) && Possible(s, e) && IsOver(s, id)
    requires !(IsLateWrite(s, e) && e.id == id)
    requires IsWorkerEvent(e)
    ensures id in Next(g, s, e).tasks && Next(g, s, e).tasks[id].runtime == s.tasks[id].runtime
  {
  }

  lemma StepFreezesTerminalByOthers(g: Settings, s: State, e: Event, id: TaskId)
    requires TaskInv(s, id) && Possible(s, e) && IsOver(s, id)
    requires !(IsLateWrite(s, e) && e.id == id)
    requires !IsWorkerEvent(e)
    ensures id in Next(g, s, e).tasks && Next(g, s, e).tasks[id].runtime == s.tasks[id].runtime
  {
  }

  /** A terminal record changes only when the worker of a task that a recovery closed writes it. */
  lemma StepFreezesTerminal(g: Settings, s: State, e: Event, id: TaskId)
    requires TaskInv(s, id) && Possible(s, e) && IsOver(s, id)
    requires !(IsLateWrite(s, e) && e.id == id)
    ensures id in Next(g, s, e).tasks && Next(g, s, e).tasks[id].runtime == s.tasks[id].runtime
  {
    if IsWorkerEvent(e) {
      StepFreezesTerminalByWorker(g, s, e, id);
    } else {
      StepFreezesTerminalByOthers(g, s, e, id);
    }
  }

  lemma TerminalIsReopenedIffByWorker(g: Settings, s: State, e: Event, id: TaskId)
    requires TaskInv(s, id) && Possible(s, e) && IsOver(s, id)
    requires IsWorkerEvent(e)
    ensures !IsOver(Next(g, s, e), id) <==> (e.DoWorkerBegin? || e.DoWorkerSpawned?) && e.id == id
    ensures !IsOver(Next(g, s, e), id) ==> IsLateWrite(s, e)
  {
  }

  lemma TerminalIsReopenedIffByOthers(g: Settings, s: State, e: Event, id: TaskId)
    requires TaskInv(s, id) && Possible(s, e) && IsOver(s, id)
    requires !IsWorkerEvent(e)
    ensures IsOver(Next(g, s, e), id)
  {
  }

  /** A terminal status is left for an open one exactly when such a worker starts or resumes its command. */
  lemma TerminalIsReopenedIff(g: Settings, s: State, e: Event, id: TaskId)
    requires TaskInv(s, id) && Possible(s, e) && IsOver(s, id)
    ensures !IsOver(Next(g, s, e), id) <==> (e.DoWorkerBegin? || e.DoWorkerSpawned?) && e.id == id
    ensures !IsOver(Next(g, s, e), id) ==> IsLateWrite(s, e)
  {
    if IsWorkerEvent(e) {
      TerminalIsReopenedIffByWorker(g, s, e, id);
    } else {
      TerminalIsReopenedIffByOthers(g, s, e, id);
    }
  }

  // ---- Whole runs ----

  lemma OpenedIsInv(g: Settings, now: int)
    ensures Inv(g, Opened(now))
  {
  }

  lemma {:induction false} RunKeepsInv(g: Settings, s: State, events: seq<Event>)
    requires Inv(g, s) && Runs(g, s, events)
    ensures Inv(g, Run(g, s, events))
    decreases |events|
  {
    if events != [] {
      NextKeepsInv(g, s, events[0]);
      RunKeepsInv(g, Next(g, s, events[0]), events[1..]);
    }
  }

  /** Without late writes a terminal record never changes again, in any field. */
  lemma {:induction false} TerminalIsForGood(g: Settings, s: State, events: seq<Event>, id: TaskId)
    requires TaskInv(s, id) && IsOver(s, id)
    requires Runs(g, s, events) && WritesInTime(g, s, events)
    ensures id in Run(g, s, events).tasks && Run(g, s, events).tasks[id].runtime == s.tasks[id].runtime
    decreases |events|
  {
    if events != [] {
      StepKeepsTask(g, s, events[0], id);
      StepFreezesTerminal(g, s, events[0], id);
      TerminalIsForGood(g, Next(g, s, events[0]), events[1..], id);
    }
  }

  ghost predicate ClosedAreOver(s: State) {
    forall id | id in s.closed :: IsOver(s, id)
  }

  lemma StepKeepsClosedOver(g: Settings, s: State, e: Event, id: TaskId)
    requires TaskInv(s, id) && Possible(s, e) && !IsLateWrite(s, e)
    requires id in s.closed ==> IsOver(s, id)
    ensures id in Next(g, s, e).closed ==> IsOver(Next(g, s, e), id)
  {
    if id in s.closed {
      StepFreezesTerminal(g, s, e, id);
    }
  }

  lemma {:induction false} RunKeepsClosedOver(g: Settings, s: State, events: seq<Event>)
    requires Inv(g, s) && ClosedAreOver(s) && Runs(g, s, events) && WritesInTime(g, s, events)
    ensures ClosedAreOver(Run(g, s, events))
    decreases |events|
  {
    if events != [] {
      var next := Next(g, s, events[0]);
      NextKeepsInv(g, s, events[0]);
      forall id | id in next.closed ensures IsOver(next, id) {
        StepKeepsClosedOver(g, s, events[0], id);
      }
      RunKeepsClosedOver(g, next, events[1..]);
    }
  }

  /** Whatever workers write late, the tasks that are active and were never closed stay within the limit. */
  lemma ActiveTasksStayWithinLimit(g: Settings, now: int, events: seq<Event>)
    requires Runs(g, Opened(now), events)
    ensures var s := Run(g, Opened(now), events);
      && |Open(s)| <= g.maxRunning
      && (WritesInTime(g, Opened(now), events) ==> |Active(s)| <= g.maxRunning)
  {
    OpenedIsInv(g, now);
    RunKeepsInv(g, Opened(now), events);
    if WritesInTime(g, Opened(now), events) {
      RunKeepsClosedOver(g, Opened(now), events);
      var s := Run(g, Opened(now), events);
      assert Active(s) == Open(s);
    }
  }

  /** Without late writes a task is over exactly when its record has a finishing time. */
  lemma OverIffFinished(g: Settings, now: int, events: seq<Event>, id: TaskId)
    requires Runs(g, Opened(now), events) && WritesInTime(g, Opened(now), events)
    requires id in Run(g, Opened(now), events).tasks
    ensures var s := Run(g, Opened(now), events);
      IsOver(s, id) <==> s.tasks[id].runtime.finishedAt.Some?
  {
    OpenedIsInv(g, now);
    RunKeepsInv(g, Opened(now), events);
    RunKeepsClosedOver(g, Opened(now), events);
    assert TaskInv(Run(g, Opened(now), events), id);
  }

  /** A runner that is gone settled its task, unless it was cancelled before its first step or its process ended. */
  lemma RunnersSettleTheirTasks(g: Settings, now: int, events: seq<Event>, id: TaskId)
    requires Runs(g, Opened(now), events)
    requires IsAgent(Run(g, Opened(now), events), id)
    ensures var s := Run(g, Opened(now), events);
      !IsOver(s, id) ==> (id in s.live && s.runners[id] != Closing) || s.runners[id] == Gone(false)
  {
    OpenedIsInv(g, now);
    RunKeepsInv(g, Opened(now), events);
    assert TaskInv(Run(g, Opened(now), events), id);
  }

  /**
   After the root manager's recovery the open agent tasks are live and the open shell tasks made progress lately; it
   closes exactly the others and gives each of them a terminal record.
   */
  lemma RecoveryLeavesNoOrphans(g: Settings, s: State, id: TaskId)
    requires TaskInv(s, id) && id in s.tasks
    ensures var s' := Next(g, s, DoRecover(true));
      && (!IsOver(s', id) && s.tasks[id].spec.kind == Agent ==> id in s'.live)
      && (!IsOver(s', id) && s.tasks[id].spec.kind == Bash ==> s.now - LastProgress(s.tasks[id]) <= g.staleAfter)
      && (s'.tasks[id] != s.tasks[id] <==> IsAbandoned(s.tasks[id], id in s.live, s.now, g.staleAfter))
      && (IsAbandoned(s.tasks[id], id in s.live, s.now, g.staleAfter) ==> IsOver(s', id) && id in s'.closed)
      && (s'.tasks[id].runtime.status == Killed && !IsOver(s, id) ==> s.tasks[id].control.killRequestedAt.Some?)
  {
  }

  /** A shell task asked to end has not ended as completed or lost. */
  ghost predicate KillStands(s: State, id: TaskId) {
    && IsBash(s, id) && s.tasks[id].control.killRequestedAt.Some?
    && s.tasks[id].runtime.status != Completed && s.tasks[id].runtime.status != Lost
  }

  /** A worker's last write honours the kill, whatever it starts from. */
  lemma LastWriteKeepsKill(s: State, written: TaskId, r: Runtime, id: TaskId)
    requires KillStands(s, id) && written in s.tasks
    requires written == id ==> r.status != Completed && r.status != Lost
    ensures KillStands(WriteLast(s, written, r), id)
  {
  }

  lemma EndKeepsKill(g: Settings, s: State, e: Event, id: TaskId)
    requires KillStands(s, id) && Possible(s, e)
    requires e.DoWorkerCheck? || e.DoWorkerFail? || e.DoWorkerFinish?
    ensures KillStands(Next(g, s, e), id)
  {
    var task, worker := s.tasks[e.id], s.workers[e.id];
    match e {
      case DoWorkerCheck(_) =>
        if task.control.killRequestedAt.Some? {
          LastWriteKeepsKill(s, e.id, Finished(worker.copy, Killed, s.now,
            KillReason(task.control, "Killed before command start")).(interrupted := true), id);
        } else if !task.spec.complete {
          LastWriteKeepsKill(s, e.id,
            Finished(worker.copy, Failed, s.now, Some("Task spec is incomplete for bash worker")), id);
        }
      case DoWorkerFail(_, reason) => LastWriteKeepsKill(s, e.id, Finished(task.runtime, Failed, s.now, Some(reason)), id);
      case DoWorkerFinish(_, timedOut, exitCode) =>
        LastWriteKeepsKill(s, e.id, WorkerFinished(worker.lastKnown, task.control, s.now, timedOut, exitCode), id);
    }
  }

  lemma BeginKeepsKill(g: Settings, s: State, e: Event, id: TaskId)
    requires KillStands(s, id) && Possible(s, e)
    requires e.DoWorkerBegin? || e.DoWorkerSpawned? || e.DoWorkerHeartbeat? || e.DoWorkerDie?
    ensures KillStands(Next(g, s, e), id)
  {
  }

  lemma StepKeepsKillByOthers(g: Settings, s: State, e: Event, id: TaskId)
    requires HasShape(s, id) && KillStands(s, id) && Possible(s, e)
    requires !IsWorkerEvent(e)
    ensures KillStands(Next(g, s, e), id)
  {
  }

  lemma StepKeepsKill(g: Settings, s: State, e: Event, id: TaskId)
    requires HasShape(s, id) && KillStands(s, id) && Possible(s, e)
    ensures KillStands(Next(g, s, e), id)
  {
    if IsWorkerEvent(e) {
      if e.DoWorkerCheck? || e.DoWorkerFail? || e.DoWorkerFinish? {
        EndKeepsKill(g, s, e, id);
      } else {
        BeginKeepsKill(g, s, e, id);
      }
    } else {
      StepKeepsKillByOthers(g, s, e, id);
    }
  }

  /** A kill of an open shell task is never undone: whatever ends the task later, it is killed or it failed. */
  lemma {:induction false} KillIsNeverForgotten(g: Settings, s: State, events: seq<Event>, id: TaskId)
    requires TaskInv(s, id) && KillStands(s, id) && Runs(g, s, events)
    ensures KillStands(Run(g, s, events), id)
    decreases |events|
  {
    if events != [] {
      StepKeepsTask(g, s, events[0], id);
      StepKeepsKill(g, s, events[0], id);
      KillIsNeverForgotten(g, Next(g, s, events[0]), events[1..], id);
    }
  }

  /** A worker that starts after its task was given up takes a slot beside those already taken, full or not. */
  lemma LateStartTakesAnExtraSlot(g: Settings, s: State, id: TaskId, pid: int)
    requires Inv(g, s) && IsOver(s, id) && id in s.workers && s.workers[id] == Launched
    ensures id in s.closed && Enabled(g, s, DoWorkerBegin(id, pid))
    ensures |Active(Next(g, s, DoWorkerBegin(id, pid)))| == |Active(s)| + 1
  {
    assert TaskInv(s, id);
    assert Active(Next(g, s, DoWorkerBegin(id, pid))) == Active(s) + {id};
  }
}
