/** The task manager, its record store and the worker of a shell task as objects. */
module BackgroundObjects {
  import opened Wrappers
  import opened BackgroundTasks
  import ApprovalObjects
  import ApprovalProtocol

  class TaskStore {
    var order: seq<TaskId>
    var tasks: map<TaskId, Task>

    constructor ()
      ensures Valid() && tasks == map[]
    {
      order, tasks := [], map[];
    }

    /** The directory lists every task once. */
    ghost predicate Valid()
      reads this
    {
      && (forall id :: id in order <==> id in tasks)
      && (forall i, j | 0 <= i < j < |order| :: order[i] != order[j])
    }

    method CreateTask(id: TaskId, spec: Spec, now: int)
      requires Valid() && id !in tasks
      modifies this
      ensures Valid() && tasks == old(tasks)[id := Task(spec, NewRuntime(now), Control(None, ""))]
    {
      order := order + [id];
      tasks := tasks[id := Task(spec, NewRuntime(now), Control(None, ""))];
    }

    method WriteRuntime(id: TaskId, runtime: Runtime)
      requires Valid() && id in tasks
      modifies this`tasks
      ensures Valid() && tasks == old(tasks)[id := old(tasks)[id].(runtime := runtime)]
    {
      tasks := tasks[id := tasks[id].(runtime := runtime)];
    }

    method WriteControl(id: TaskId, control: Control)
      requires Valid() && id in tasks
      modifies this`tasks
      ensures Valid() && tasks == old(tasks)[id := old(tasks)[id].(control := control)]
    {
      tasks := tasks[id := tasks[id].(control := control)];
    }
  }

  datatype Refusal = NotRoot | NotLocal | NotBound | TooMany | LaunchFailed

  /** Where the approval requests of a background agent come from. */
  function AgentSource(id: TaskId): ApprovalProtocol.Source {
    ApprovalProtocol.Source(ApprovalProtocol.BackgroundAgent, id)
  }

  class BackgroundTaskManager {
    const store: TaskStore
    const settings: Settings
    const isRoot: bool
    const isLocal: bool
    /** The approval runtime of the runtime this manager is bound to, once it is. */
    var approvals: ApprovalObjects.ApprovalRuntime?
    var live: set<TaskId>
    /** The live runners that were asked to stop. */
    var cancelled: set<TaskId>

    constructor (store: TaskStore, settings: Settings, isRoot: bool, isLocal: bool)
      ensures this.store == store && this.settings == settings && this.isRoot == isRoot && this.isLocal == isLocal
      ensures approvals == null && live == {} && cancelled == {}
    {
      this.store, this.settings, this.isRoot, this.isLocal := store, settings, isRoot, isLocal;
      approvals, live, cancelled := null, {}, {};
    }

    method BindRuntime(approvals: ApprovalObjects.ApprovalRuntime)
      modifies this`approvals
      ensures this.approvals == approvals
    {
      this.approvals := approvals;
    }

    /** What this manager and its store contribute to the state of the whole system. */
    ghost function Seen(now: int): State
      reads this, store
    {
      State(store.tasks, live, map[], map[], {}, now)
    }

    method ActiveTaskCount() returns (n: nat)
      requires store.Valid()
      ensures n == |ActiveIn(store.tasks)|
    {
      n := 0;
      ghost var counted: set<TaskId> := {};
      for i := 0 to |store.order|
        invariant n == |counted|
        invariant forall id :: id in counted <==> id in store.order[..i] && id in ActiveIn(store.tasks)
      {
        var id := store.order[i];
        if !IsTerminal(store.tasks[id].runtime.status) {
          n := n + 1;
          counted := counted + {id};
        }
      }
      assert store.order[..|store.order|] == store.order;
      assert counted == ActiveIn(store.tasks);
    }

    /** `create_bash_task` up to the start of the worker process. */
    method CreateBashTask(id: TaskId, complete: bool, launches: bool, reason: string, now: int)
      returns (refusal: Option<Refusal>)
      requires store.Valid() && id !in store.tasks
      modifies store
      ensures store.Valid()
      ensures refusal == if !isRoot then Some(NotRoot)
                         else if !isLocal then Some(NotLocal)
                         else if !Enabled(settings, old(Seen(now)), DoCreateBash(id, complete, launches, reason))
                         then Some(TooMany)
                         else if launches then None else Some(LaunchFailed)
      ensures refusal.Some? && refusal.value != LaunchFailed ==> store.tasks == old(store.tasks)
      ensures refusal == None || refusal == Some(LaunchFailed) ==>
                store.tasks == Next(settings, old(Seen(now)), DoCreateBash(id, complete, launches, reason)).tasks
    {
      if !isRoot {
        return Some(NotRoot);
      }
      if !isLocal {
        return Some(NotLocal);
      }
      var active := ActiveTaskCount();
      if active >= settings.maxRunning {
        return Some(TooMany);
      }
      store.CreateTask(id, Spec(Bash, now, complete), now);
      var runtime := store.tasks[id].runtime;
      if !launches {
        store.WriteRuntime(id, runtime.(status := Failed, failureReason := Some(reason), finishedAt := Some(now),
                                        updatedAt := now));
        return Some(LaunchFailed);
      }
      return None;
    }

    /** The rest of `create_bash_task`. */
    method StampWorker(id: TaskId, pid: int, now: int)
      requires store.Valid() && id in store.tasks
      modifies store`tasks
      ensures store.Valid()
      ensures store.tasks == old(store.tasks)[id := old(store.tasks)[id].(
                                                runtime := Stamp(old(store.tasks)[id].runtime, pid, now))]
    {
      var runtime := store.tasks[id].runtime;
      if runtime.finishedAt.None?
         && (runtime.status == Created || (runtime.status == Starting && runtime.workerPid.None?))
      {
        store.WriteRuntime(id, runtime.(status := Starting, workerPid := Some(pid), updatedAt := now));
      }
    }

    method CreateAgentTask(id: TaskId, now: int) returns (refusal: Option<Refusal>)
      requires store.Valid() && id !in store.tasks
      modifies this`live, store
      ensures store.Valid()
      ensures refusal == if !isRoot then Some(NotRoot)
                         else if !isLocal then Some(NotLocal)
                         else if approvals == null then Some(NotBound)
                         else if !Enabled(settings, old(Seen(now)), DoCreateAgent(id)) then Some(TooMany) else None
      ensures refusal.Some? ==> store.tasks == old(store.tasks) && live == old(live)
      ensures refusal.None? ==>
                var s := Next(settings, old(Seen(now)), DoCreateAgent(id));
                store.tasks == s.tasks && live == s.live
    {
      if !isRoot {
        return Some(NotRoot);
      }
      if !isLocal {
        return Some(NotLocal);
      }
      if approvals == null {
        return Some(NotBound);
      }
      var active := ActiveTaskCount();
      if active >= settings.maxRunning {
        return Some(TooMany);
      }
      store.CreateTask(id, Spec(Agent, now, true), now);
      var runtime := store.tasks[id].runtime;
      store.WriteRuntime(id, runtime.(status := Starting, updatedAt := now));
      live := live + {id};
      return None;
    }

    method MarkTask(id: TaskId, marking: Marking, now: int)
      requires store.Valid() && id in store.tasks
      modifies store`tasks
      ensures store.Valid()
      ensures store.tasks == old(store.tasks)[id := old(store.tasks)[id].(
                                                runtime := Mark(old(store.tasks)[id].runtime, marking, now))]
    {
      var runtime := store.tasks[id].runtime;
      if IsTerminal(runtime.status) {
        return;
      }
      match marking
      case MarkRunning =>
        store.WriteRuntime(id, runtime.(status := Running, updatedAt := now, heartbeatAt := Some(now),
                                        failureReason := None));
      case MarkAwaitingApproval(reason) =>
        store.WriteRuntime(id, runtime.(status := AwaitingApproval, updatedAt := now, failureReason := Some(reason)));
      case MarkCompleted =>
        store.WriteRuntime(id, runtime.(status := Completed, updatedAt := now, finishedAt := Some(now),
                                        failureReason := None));
      case MarkFailed(reason) =>
        store.WriteRuntime(id, runtime.(status := Failed, updatedAt := now, finishedAt := Some(now),
                                        failureReason := Some(reason)));
      case MarkTimedOut(reason) =>
        store.WriteRuntime(id, runtime.(status := Failed, updatedAt := now, finishedAt := Some(now),
                                        interrupted := true, timedOut := true, failureReason := Some(reason)));
      case MarkKilled(reason) =>
        store.WriteRuntime(id, runtime.(status := Killed, updatedAt := now, finishedAt := Some(now),
                                        interrupted := true, failureReason := Some(reason)));
    }

    /** `kill`: an agent task also loses its pending approvals, and its runner is asked to stop. */
    method Kill(id: TaskId, reason: string, now: int) returns (refusal: Option<Refusal>)
      requires store.Valid() && id in store.tasks
      modifies store`tasks, this`cancelled, approvals
      ensures store.Valid()
      ensures refusal == if isRoot then None else Some(NotRoot)
      ensures store.tasks == if isRoot then old(store.tasks)[id := KillTask(old(store.tasks)[id], reason, now)]
                             else old(store.tasks)
      ensures var ended := isRoot && old(store.tasks)[id].spec.kind == Agent &&
                           !IsTerminal(old(store.tasks)[id].runtime.status);
        && cancelled == (if ended && id in live then old(cancelled) + {id} else old(cancelled))
        && (approvals != null ==>
              approvals.Contents() == if ended
                then ApprovalProtocol.CancelBySource(old(approvals.Contents()), AgentSource(id))
                else old(approvals.Contents()))
    {
      if !isRoot {
        return Some(NotRoot);
      }
      var view := store.tasks[id];
      if IsTerminal(view.runtime.status) {
        return None;
      }
      if view.spec.kind == Agent {
        MarkTask(id, MarkKilled(reason), now);
        if approvals != null {
          var _ := approvals.CancelFromSource(AgentSource(id));
        }
        if id in live {
          cancelled := cancelled + {id};
        }
        return None;
      }
      store.WriteControl(id, Control(Some(now), reason));
      return None;
    }

    /** `recover`: both looks at a silent worker's record happen within one step of the system. */
    method Recover(now: int)
      requires store.Valid()
      modifies store`tasks
      ensures store.Valid()
      ensures store.tasks == RecoverTasks(old(store.tasks), live, now, settings.staleAfter)
    {
      var views := store.tasks;
      for i := 0 to |store.order|
        invariant store.Valid() && store.order == old(store.order) && store.tasks.Keys == views.Keys
        invariant forall id | id in views :: store.tasks[id] ==
                    if id in store.order[..i] then RecoverTask(views[id], id in live, now, settings.staleAfter)
                    else views[id]
      {
        var id := store.order[i];
        assert store.tasks[id] == views[id];
        RecoverOne(id, now);
      }
      assert store.order[..|store.order|] == store.order;
      assert store.tasks == RecoverTasks(views, live, now, settings.staleAfter);
    }

    /** The turn of `recover` for one listed task. */
    method RecoverOne(id: TaskId, now: int)
      requires store.Valid() && id in store.tasks
      modifies store`tasks
      ensures store.Valid()
      ensures store.tasks ==
              old(store.tasks)[id := RecoverTask(old(store.tasks)[id], id in live, now, settings.staleAfter)]
    {
      var view := store.tasks[id];
      if IsTerminal(view.runtime.status) {
        return;
      }
      if view.spec.kind == Agent {
        if id !in live {
          store.WriteRuntime(id, view.runtime.(
                                   finishedAt := Some(now), updatedAt := now, status := Lost,
                                   failureReason := Some("In-process background agent is no longer running")));
        }
      } else if now - LastProgress(view) > settings.staleAfter {
        CloseSilentWorker(id, view, now);
      }
    }

    method CloseSilentWorker(id: TaskId, view: Task, now: int)
      requires store.Valid() && id in store.tasks && view == store.tasks[id]
      requires view.spec.kind == Bash && !IsTerminal(view.runtime.status)
      requires now - LastProgress(view) > settings.staleAfter
      modifies store`tasks
      ensures store.Valid()
      ensures store.tasks == old(store.tasks)[id := RecoverTask(view, id in live, now, settings.staleAfter)]
    {
      var runtime := store.tasks[id].runtime.(finishedAt := Some(now), updatedAt := now);
      if view.control.killRequestedAt.Some? {
        var reason := if view.control.killReason != "" then view.control.killReason else "Killed during recovery";
        store.WriteRuntime(id, runtime.(status := Killed, interrupted := true, failureReason := Some(reason)));
      } else {
        var reason := if runtime.heartbeatAt.None? then "Background worker never heartbeat after startup"
                      else "Background worker heartbeat expired";
        store.WriteRuntime(id, runtime.(status := Lost, failureReason := Some(reason)));
      }
    }
  }

  class TaskWorker {
    const store: TaskStore
    const id: TaskId
    var phase: Worker

    constructor (store: TaskStore, id: TaskId)
      ensures this.store == store && this.id == id && phase == Launched
    {
      this.store, this.id, phase := store, id, Launched;
    }

    /** What the worker and the store contribute to the state of the whole system. */
    ghost function Seen(now: int): State
      reads this, store
    {
      State(store.tasks, {}, map[id := phase], map[], {}, now)
    }

    ghost predicate Ready()
      reads this, store
    {
      store.Valid() && id in store.tasks && store.tasks[id].spec.kind == Bash
    }

    method Begin(settings: Settings, pid: int, now: int)
      requires Ready() && Enabled(settings, Seen(now), DoWorkerBegin(id, pid))
      modifies this, store`tasks
      ensures Ready() && Seen(now) == Next(settings, old(Seen(now)), DoWorkerBegin(id, pid))
    {
      var runtime := store.tasks[id].runtime.(
        status := Starting, workerPid := Some(pid), startedAt := Some(now), heartbeatAt := Some(now), updatedAt := now);
      store.WriteRuntime(id, runtime);
      phase := Begun(runtime);
    }

    /** The worker's last write. */
    method WriteLast(runtime: Runtime, now: int)
      requires Ready()
      modifies this, store`tasks
      ensures Ready()
      ensures Seen(now) == BackgroundTasks.WriteLast(old(Seen(now)), id, runtime)
    {
      store.WriteRuntime(id, runtime);
      phase := Exited;
    }

    method CheckBeforeStart(settings: Settings, now: int)
      requires Ready() && Enabled(settings, Seen(now), DoWorkerCheck(id))
      modifies this, store`tasks
      ensures Ready() && Seen(now) == Next(settings, old(Seen(now)), DoWorkerCheck(id))
    {
      var runtime, control := phase.copy.(finishedAt := Some(now), updatedAt := now), store.tasks[id].control;
      ghost var before := Seen(now);
      assert Next(settings, before, DoWorkerCheck(id)) == WorkerChecked(before, id, phase.copy);
      if control.killRequestedAt.Some? {
        var reason := if control.killReason != "" then control.killReason else "Killed before command start";
        WriteLast(runtime.(status := Killed, interrupted := true, failureReason := Some(reason)), now);
      } else if !store.tasks[id].spec.complete {
        WriteLast(runtime.(status := Failed, failureReason := Some("Task spec is incomplete for bash worker")), now);
      } else {
        phase := Spawning;
      }
    }

    method CommandStarted(settings: Settings, pid: int, grouped: bool, now: int)
      requires Ready() && Enabled(settings, Seen(now), DoWorkerSpawned(id, pid, grouped))
      modifies this, store`tasks
      ensures Ready() && Seen(now) == Next(settings, old(Seen(now)), DoWorkerSpawned(id, pid, grouped))
    {
      var runtime := store.tasks[id].runtime.(
        status := Running, childPid := Some(pid), childPgid := if grouped then Some(pid) else None,
        updatedAt := now, heartbeatAt := Some(now));
      store.WriteRuntime(id, runtime);
      phase := Supervising(runtime);
    }

    method Beat(settings: Settings, now: int)
      requires Ready() && Enabled(settings, Seen(now), DoWorkerHeartbeat(id))
      modifies store`tasks
      ensures Ready() && Seen(now) == Next(settings, old(Seen(now)), DoWorkerHeartbeat(id))
    {
      var current := store.tasks[id].runtime;
      if current.finishedAt.None? {
        store.WriteRuntime(id, current.(heartbeatAt := Some(now), updatedAt := now));
      }
    }

    method Fail(settings: Settings, reason: string, now: int)
      requires Ready() && Enabled(settings, Seen(now), DoWorkerFail(id, reason))
      modifies this, store`tasks
      ensures Ready() && Seen(now) == Next(settings, old(Seen(now)), DoWorkerFail(id, reason))
    {
      var runtime := store.tasks[id].runtime;
      WriteLast(runtime.(status := Failed, finishedAt := Some(now), updatedAt := now, failureReason := Some(reason)), now);
    }

    method Finish(settings: Settings, timedOut: bool, exitCode: int, now: int)
      requires Ready() && Enabled(settings, Seen(now), DoWorkerFinish(id, timedOut, exitCode))
      modifies this, store`tasks
      ensures Ready() && Seen(now) == Next(settings, old(Seen(now)), DoWorkerFinish(id, timedOut, exitCode))
      ensures var r, asked := store.tasks[id].runtime, old(store.tasks)[id].control.killRequestedAt.Some?;
        && r.exitCode == Some(exitCode) && r.finishedAt == Some(now)
        && (timedOut ==> r.status == Failed && r.timedOut && r.interrupted)
        && (!timedOut && asked ==> r.status == Killed && r.interrupted)
        && (!timedOut && !asked ==> r.status == if exitCode == 0 then Completed else Failed)
        && (!timedOut ==> r.timedOut == old(phase).lastKnown.timedOut)
        && (!timedOut && !asked ==> r.interrupted == old(phase).lastKnown.interrupted)
    {
      var runtime := phase.lastKnown.(finishedAt := Some(now), updatedAt := now, exitCode := Some(exitCode),
                                      heartbeatAt := Some(now));
      var control := store.tasks[id].control;
      if timedOut {
        WriteLast(runtime.(status := Failed, interrupted := true, timedOut := true,
                           failureReason := Some("Command timed out")), now);
      } else if control.killRequestedAt.Some? {
        var reason := if control.killReason != "" then control.killReason else "Killed";
        WriteLast(runtime.(status := Killed, interrupted := true, failureReason := Some(reason)), now);
      } else if exitCode == 0 {
        WriteLast(runtime.(status := Completed, failureReason := None), now);
      } else {
        WriteLast(runtime.(status := Failed, failureReason := Some("Command failed")), now);
      }
    }
  }

  class BackgroundAgentRunner {
    const manager: BackgroundTaskManager
    const approvals: ApprovalObjects.ApprovalRuntime
    const id: TaskId
    var instance: Option<InstanceStatus>

    constructor (manager: BackgroundTaskManager, approvals: ApprovalObjects.ApprovalRuntime, id: TaskId)
      ensures this.manager == manager && this.approvals == approvals && this.id == id && instance == None
    {
      this.manager, this.approvals, this.id, instance := manager, approvals, id, None;
    }

    method Start(now: int)
      requires manager.store.Valid() && id in manager.store.tasks
      modifies manager.store`tasks
      ensures manager.store.Valid()
      ensures var task := old(manager.store.tasks)[id];
        manager.store.tasks == old(manager.store.tasks)[id := task.(runtime := Mark(task.runtime, MarkRunning, now))]
    {
      manager.MarkTask(id, MarkRunning, now);
    }

    /** The marking of the instance and of the task on each exit path. */
    method MarkExit(result: RunResult, now: int)
      requires manager.store.Valid() && id in manager.store.tasks
      modifies this`instance, manager.store`tasks
      ensures manager.store.Valid() && instance == Some(InstanceAfter(result))
      ensures var task := old(manager.store.tasks)[id];
        manager.store.tasks ==
        old(manager.store.tasks)[id := task.(runtime := Mark(task.runtime, ExitMarking(result), now))]
    {
      match result
      case Response =>
        instance := Some(IdleInstance);
        manager.MarkTask(id, MarkCompleted, now);
      case NoOutput =>
        manager.MarkTask(id, MarkFailed("Agent completed but produced no output."), now);
        instance := Some(FailedInstance);
      case Failure(message) =>
        manager.MarkTask(id, MarkFailed(message), now);
        instance := Some(FailedInstance);
      case TaskTimeout =>
        instance := Some(FailedInstance);
        manager.MarkTask(id, MarkTimedOut("Agent task timed out"), now);
      case InternalTimeout(message) =>
        instance := Some(FailedInstance);
        manager.MarkTask(id, MarkFailed(message), now);
      case Cancellation =>
        instance := Some(KilledInstance);
        manager.MarkTask(id, MarkKilled("Stopped by TaskStop"), now);
      case RunCancellation =>
        instance := Some(KilledInstance);
        manager.MarkTask(id, MarkKilled("Run was cancelled"), now);
      case Raised(message) =>
        instance := Some(FailedInstance);
        manager.MarkTask(id, MarkFailed(message), now);
    }

    /** On every path the task is terminal, its pending approvals are cancelled and it leaves the live table. */
    method Leave(result: RunResult, now: int)
      requires manager.store.Valid() && id in manager.store.tasks
      modifies this`instance, manager`live, manager.store`tasks, approvals
      ensures manager.store.Valid() && manager.live == old(manager.live) - {id}
      ensures IsTerminal(manager.store.tasks[id].runtime.status) && instance == Some(InstanceAfter(result))
      ensures var task := old(manager.store.tasks)[id];
        manager.store.tasks ==
        old(manager.store.tasks)[id := task.(runtime := Mark(task.runtime, ExitMarking(result), now))]
      ensures approvals.Contents() == ApprovalProtocol.CancelBySource(old(approvals.Contents()), AgentSource(id))
    {
      MarkExit(result, now);
      var _ := approvals.CancelFromSource(AgentSource(id));
      manager.live := manager.live - {id};
    }
  }
}
