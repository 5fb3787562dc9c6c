/** How shell tasks end, over whole runs: the record says what happened to the command, and keeps saying it. */
module TaskOutcomes {
  import opened Wrappers
  import opened BackgroundTasks

  /** What the record must say of a command that exited or timed out, given the kill requests at that time. */
  ghost predicate Reports(r: Runtime, c: Control, timedOut: bool, exitCode: int) {
    && r.exitCode == Some(exitCode) && r.timedOut == timedOut && r.finishedAt.Some?
    && (r.interrupted <==> timedOut || c.killRequestedAt.Some?)
    && r.heartbeatAt == r.finishedAt == Some(r.updatedAt)
    && (timedOut ==> r.status == Failed && r.failureReason.Some?)
    && (!timedOut && c.killRequestedAt.Some? ==>
          r.status == Killed && r.failureReason == Some(if c.killReason == "" then "Killed" else c.killReason))
    && (!timedOut && c.killRequestedAt.None? && exitCode == 0 ==> r.status == Completed && r.failureReason.None?)
    && (!timedOut && c.killRequestedAt.None? && exitCode != 0 ==> r.status == Failed && r.failureReason.Some?)
  }

  /** A record or a worker's copy of it from before the command ended. */
  ghost predicate IsOpenEnded(r: Runtime, c: Control) {
    && r.exitCode.None? && !r.timedOut && r.status != Completed
    && (r.interrupted ==> c.killRequestedAt.Some?)
  }

  /** While the worker of a shell task lives, neither the record nor its copies know of an end of the command. */
  ghost predicate AwaitsItsEnd(s: State, id: TaskId) {
    id in s.workers && !s.workers[id].Exited? ==>
      && id in s.tasks && IsOpenEnded(s.tasks[id].runtime, s.tasks[id].control)
      && (s.workers[id].Begun? ==> IsOpenEnded(s.workers[id].copy, s.tasks[id].control))
      && (s.workers[id].Supervising? ==> IsOpenEnded(s.workers[id].lastKnown, s.tasks[id].control))
  }

  predicate IsWorkersEnd(e: Event) {
    e.DoWorkerFail? || e.DoWorkerFinish? || e.DoWorkerDie?
  }

  lemma WorkersEndKeepsWaiting(g: Settings, s: State, e: Event, id: TaskId)
    requires HasShape(s, id) && AwaitsItsEnd(s, id) && Possible(s, e) && IsWorkersEnd(e)
    ensures AwaitsItsEnd(Next(g, s, e), id)
  {
  }

  lemma CheckKeepsWaiting(g: Settings, s: State, e: Event, id: TaskId)
    requires HasShape(s, id) && AwaitsItsEnd(s, id) && Possible(s, e) && e.DoWorkerCheck?
    ensures AwaitsItsEnd(Next(g, s, e), id)
  {
    assert Next(g, s, e) == WorkerChecked(s, e.id, s.workers[e.id].copy);
  }

  lemma WorkerKeepsWaiting(g: Settings, s: State, e: Event, id: TaskId)
    requires HasShape(s, id) && AwaitsItsEnd(s, id) && Possible(s, e)
    requires IsWorkerEvent(e) && !IsWorkersEnd(e) && !e.DoWorkerCheck?
    ensures AwaitsItsEnd(Next(g, s, e), id)
  {
  }

  lemma OthersKeepWaiting(g: Settings, s: State, e: Event, id: TaskId)
    requires HasShape(s, id) && AwaitsItsEnd(s, id) && Possible(s, e) && !IsWorkerEvent(e)
    ensures AwaitsItsEnd(Next(g, s, e), id)
  {
  }

  /** The task has ended and its worker is gone. */
  ghost predicate IsDone(s: State, id: TaskId) {
    IsOver(s, id) && id in s.workers && s.workers[id].Exited?
  }

  /** The worker's last write reports how the command ended. */
  lemma FinishReports(g: Settings, s: State, id: TaskId, timedOut: bool, exitCode: int)
    requires AwaitsItsEnd(s, id) && Possible(s, DoWorkerFinish(id, timedOut, exitCode))
    ensures var s' := Next(g, s, DoWorkerFinish(id, timedOut, exitCode));
      IsDone(s', id) && Reports(s'.tasks[id].runtime, s.tasks[id].control, timedOut, exitCode)
  {
  }

  lemma DoneStays(g: Settings, s: State, e: Event, id: TaskId)
    requires TaskInv(s, id) && IsDone(s, id) && Possible(s, e)
    ensures IsDone(Next(g, s, e), id) && Next(g, s, e).tasks[id].runtime == s.tasks[id].runtime
  {
    StepFreezesTerminal(g, s, e, id);
  }

  // ---- Whole runs ----

  lemma {:induction false} RunSplits(g: Settings, s: State, events: seq<Event>, k: nat)
    requires Runs(g, s, events) && k < |events|
    ensures Runs(g, s, events[..k]) && Runs(g, s, events[..k + 1])
    ensures Enabled(g, Run(g, s, events[..k]), events[k])
    ensures Run(g, s, events[..k + 1]) == Next(g, Run(g, s, events[..k]), events[k])
    decreases |events|
  {
    if k > 0 {
      RunSplits(g, Next(g, s, events[0]), events[1..], k - 1);
      assert events[1..][..k - 1] == events[..k][1..] && events[1..][..k] == events[..k + 1][1..];
    }
  }

  ghost predicate OutcomeInv(s: State, id: TaskId) {
    TaskInv(s, id) && AwaitsItsEnd(s, id)
  }

  lemma {:induction false} RunKeepsOutcomeInv(g: Settings, s: State, events: seq<Event>, id: TaskId)
    requires OutcomeInv(s, id) && Runs(g, s, events)
    ensures OutcomeInv(Run(g, s, events), id)
    decreases |events|
  {
    if events != [] {
      StepKeepsTask(g, s, events[0], id);
      if IsWorkersEnd(events[0]) {
        WorkersEndKeepsWaiting(g, s, events[0], id);
      } else if events[0].DoWorkerCheck? {
        CheckKeepsWaiting(g, s, events[0], id);
      } else if IsWorkerEvent(events[0]) {
        WorkerKeepsWaiting(g, s, events[0], id);
      } else {
        OthersKeepWaiting(g, s, events[0], id);
      }
      RunKeepsOutcomeInv(g, Next(g, s, events[0]), events[1..], id);
    }
  }

  /** Event `k` is the end of the task's command. */
  ghost predicate EndsAt(g: Settings, s: State, events: seq<Event>, k: nat, id: TaskId)
    requires k < |events| && Runs(g, s, events[..k])
  {
    events[k].DoWorkerFinish? && events[k].id == id && id in Run(g, s, events[..k]).tasks
  }

  /** From the end of the command on, through kills, recoveries and restarts, the record reports it. */
  lemma {:induction false} EndIsReportedForGood(g: Settings, s: State, events: seq<Event>, k: nat, id: TaskId)
    requires OutcomeInv(s, id) && Runs(g, s, events) && k < |events|
    requires Runs(g, s, events[..k]) && EndsAt(g, s, events, k, id)
    ensures var control, end := Run(g, s, events[..k]).tasks[id].control, Run(g, s, events);
      IsDone(end, id) && Reports(end.tasks[id].runtime, control, events[k].timedOut, events[k].exitCode)
    decreases |events|
  {
    var last := |events| - 1;
    RunSplits(g, s, events, last);
    assert events[..last + 1] == events;
    RunKeepsOutcomeInv(g, s, events[..last], id);
    var before := Run(g, s, events[..last]);
    if k == last {
      FinishReports(g, before, id, events[k].timedOut, events[k].exitCode);
    } else {
      assert events[..last][..k] == events[..k];
      EndIsReportedForGood(g, s, events[..last], k, id);
      DoneStays(g, before, events[last], id);
    }
  }

  /** The record says that the command ended. */
  ghost predicate SaysEnded(s: State, id: TaskId) {
    && id in s.tasks && s.tasks[id].spec.kind == Bash
    && (s.tasks[id].runtime.exitCode.Some? || s.tasks[id].runtime.timedOut || s.tasks[id].runtime.status == Completed)
  }

  lemma OnlyFinishSaysEndedByWorker(g: Settings, s: State, e: Event, id: TaskId)
    requires OutcomeInv(s, id) && Possible(s, e) && SaysEnded(Next(g, s, e), id) && IsWorkerEvent(e)
    ensures SaysEnded(s, id) || (e.DoWorkerFinish? && e.id == id)
  {
  }

  lemma OnlyFinishSaysEndedByOthers(g: Settings, s: State, e: Event, id: TaskId)
    requires OutcomeInv(s, id) && Possible(s, e) && SaysEnded(Next(g, s, e), id) && !IsWorkerEvent(e)
    ensures SaysEnded(s, id)
  {
  }

  /** A record never says that a command ended unless it did. */
  lemma {:induction false} WhatIsSaidHappened(g: Settings, s: State, events: seq<Event>, id: TaskId)
    requires OutcomeInv(s, id) && id !in s.tasks && Runs(g, s, events) && SaysEnded(Run(g, s, events), id)
    ensures exists k :: 0 <= k < |events| && Runs(g, s, events[..k]) && EndsAt(g, s, events, k, id)
    decreases |events|
  {
    if events != [] {
      var last := |events| - 1;
      var before := events[..last];
      RunSplits(g, s, events, last);
      assert events[..last + 1] == events;
      RunKeepsOutcomeInv(g, s, before, id);
      var t := Run(g, s, before);
      if SaysEnded(t, id) {
        WhatIsSaidHappened(g, s, before, id);
        var k :| 0 <= k < |before| && Runs(g, s, before[..k]) && EndsAt(g, s, before, k, id);
        assert before[..k] == events[..k];
        assert EndsAt(g, s, events, k, id);
      } else if IsWorkerEvent(events[last]) {
        OnlyFinishSaysEndedByWorker(g, t, events[last], id);
        assert EndsAt(g, s, events, last, id);
      } else {
        OnlyFinishSaysEndedByOthers(g, t, events[last], id);
      }
    }
  }

  /** The command of the task ended at `k` with exit code 0, in time and with nobody having asked for its end. */
  ghost predicate SucceedsAt(g: Settings, s: State, events: seq<Event>, k: nat, id: TaskId)
    requires k < |events| && Runs(g, s, events[..k])
  {
    && EndsAt(g, s, events, k, id) && events[k].exitCode == 0 && !events[k].timedOut
    && Run(g, s, events[..k]).tasks[id].control.killRequestedAt.None?
  }

  /** A shell task is completed exactly when its command succeeded at some time. */
  lemma CompletedIffSucceeded(g: Settings, now: int, events: seq<Event>, id: TaskId)
    requires Runs(g, Opened(now), events)
    requires IsBash(Run(g, Opened(now), events), id)
    ensures Run(g, Opened(now), events).tasks[id].runtime.status == Completed <==>
            exists k :: 0 <= k < |events| && Runs(g, Opened(now), events[..k]) &&
                        SucceedsAt(g, Opened(now), events, k, id)
  {
    var s := Opened(now);
    if Run(g, s, events).tasks[id].runtime.status == Completed {
      WhatIsSaidHappened(g, s, events, id);
      var k :| 0 <= k < |events| && Runs(g, s, events[..k]) && EndsAt(g, s, events, k, id);
      EndIsReportedForGood(g, s, events, k, id);
      assert SucceedsAt(g, s, events, k, id);
    }
    if k :| 0 <= k < |events| && Runs(g, s, events[..k]) && SucceedsAt(g, s, events, k, id) {
      EndIsReportedForGood(g, s, events, k, id);
    }
  }

  /** What a shell task's record can say in any run: a non-zero exit never looks like success, a timeout is a failure. */
  lemma OutcomesAreConsistent(g: Settings, now: int, events: seq<Event>, id: TaskId)
    requires Runs(g, Opened(now), events)
    requires IsBash(Run(g, Opened(now), events), id)
    ensures var r := Run(g, Opened(now), events).tasks[id].runtime;
      && (r.timedOut ==> r.status == Failed && r.interrupted && r.exitCode.Some?)
      && (r.exitCode.Some? && r.exitCode.value != 0 ==> r.status == Failed || r.status == Killed)
      && (r.status == Completed ==> r.exitCode == Some(0) && !r.timedOut && !r.interrupted && r.failureReason.None?)
  {
    var s := Opened(now);
    if SaysEnded(Run(g, s, events), id) {
      WhatIsSaidHappened(g, s, events, id);
      var k :| 0 <= k < |events| && Runs(g, s, events[..k]) && EndsAt(g, s, events, k, id);
      EndIsReportedForGood(g, s, events, k, id);
    }
  }

  // ---- Agent tasks ----

  /** A runner that comes back to an open task records what its run came to. */
  lemma RunnerRecordsItsResult(g: Settings, s: State, id: TaskId, result: RunResult)
    requires Possible(s, DoRunnerExit(id, ExitMarking(result))) && !IsOver(s, id)
    ensures var r := Next(g, s, DoRunnerExit(id, ExitMarking(result))).tasks[id].runtime;
      && r.finishedAt == Some(s.now) && r.updatedAt == s.now
      && (r.status == Completed <==> result.Response?)
      && (r.status == Killed <==> result.Cancellation? || result.RunCancellation?)
      && (r.status == Failed <==> !result.Response? && !result.Cancellation? && !result.RunCancellation?)
      && (result.TaskTimeout? ==> r.timedOut)
      && (result.TaskTimeout? || result.Cancellation? || result.RunCancellation? ==> r.interrupted)
      && (r.failureReason.None? <==> result.Response?)
      && (result.Cancellation? ==> r.failureReason == Some("Stopped by TaskStop"))
      && (result.RunCancellation? ==> r.failureReason == Some("Run was cancelled"))
      && (result.Failure? || result.InternalTimeout? || result.Raised? ==> r.failureReason == Some(result.message))
  {
  }

  /** Killing an open agent task ends it at once; a shell task goes on until its worker sees the request. */
  lemma KillEndsOrAsks(g: Settings, s: State, id: TaskId, reason: string)
    requires Possible(s, DoKill(id, reason)) && !IsOver(s, id)
    ensures var t := Next(g, s, DoKill(id, reason)).tasks[id];
      && (s.tasks[id].spec.kind == Agent ==>
            t.runtime.status == Killed && t.runtime.failureReason == Some(reason) && t.runtime.interrupted
            && t.runtime.finishedAt == Some(s.now) && t.control == s.tasks[id].control)
      && (s.tasks[id].spec.kind == Bash ==>
            t.runtime == s.tasks[id].runtime
            && t.control.killRequestedAt == Some(s.now) && t.control.killReason == reason)
  {
  }

  /** The record of an agent task that has ended never changes again, whatever its runner does later. */
  lemma {:induction false} AgentEndsOnce(g: Settings, s: State, events: seq<Event>, id: TaskId)
    requires TaskInv(s, id) && IsOver(s, id) && IsAgent(s, id) && Runs(g, s, events)
    ensures id in Run(g, s, events).tasks && Run(g, s, events).tasks[id].runtime == s.tasks[id].runtime
    decreases |events|
  {
    if events != [] {
      StepKeepsTask(g, s, events[0], id);
      StepFreezesTerminal(g, s, events[0], id);
      AgentEndsOnce(g, Next(g, s, events[0]), events[1..], id);
    }
  }

  // ---- What the other writes record ----

  /** A shell task starts as created with a worker on its way, or fails at once if none could be launched. */
  lemma ShellTaskIsCreated(g: Settings, s: State, id: TaskId, complete: bool, launches: bool, reason: string)
    requires Possible(s, DoCreateBash(id, complete, launches, reason))
    ensures var s' := Next(g, s, DoCreateBash(id, complete, launches, reason));
      && s'.tasks.Keys == s.tasks.Keys + {id} && (forall x | x in s.tasks :: s'.tasks[x] == s.tasks[x])
      && id in s'.workers && (s'.workers[id] == Launched <==> launches) && (s'.workers[id] == Exited <==> !launches)
      && var t := s'.tasks[id];
         && t.spec == Spec(Bash, s.now, complete) && t.control.killRequestedAt.None?
         && t.runtime.updatedAt == s.now && IsOpenEnded(t.runtime, t.control) && !t.runtime.interrupted
         && t.runtime.workerPid.None? && t.runtime.childPid.None? && t.runtime.startedAt.None?
         && t.runtime.heartbeatAt.None?
         && (launches ==> t.runtime.status == Created && t.runtime.finishedAt.None? && t.runtime.failureReason.None?)
         && (!launches ==>
               t.runtime.status == Failed && t.runtime.finishedAt == Some(s.now) && t.runtime.failureReason == Some(reason))
  {
  }

  lemma AgentTaskIsCreated(g: Settings, s: State, id: TaskId)
    requires Possible(s, DoCreateAgent(id))
    ensures var s' := Next(g, s, DoCreateAgent(id));
      && s'.tasks.Keys == s.tasks.Keys + {id} && (forall x | x in s.tasks :: s'.tasks[x] == s.tasks[x])
      && id in s'.live && id in s'.runners && s'.runners[id] == Scheduled
      && var t := s'.tasks[id];
         && t.spec == Spec(Agent, s.now, true) && t.runtime.status == Starting
         && t.runtime.updatedAt == s.now && t.runtime.finishedAt.None? && t.runtime.failureReason.None?
         && !t.runtime.interrupted && !t.runtime.timedOut
  {
  }

  /** A runner's progress marks show in an open record; they lift a reason noted while an approval was awaited. */
  lemma MarksShow(g: Settings, s: State, id: TaskId, m: Marking)
    requires Possible(s, DoMark(id, m)) && !IsOver(s, id)
    ensures var r, before := Next(g, s, DoMark(id, m)).tasks[id].runtime, s.tasks[id].runtime;
      && r.updatedAt == s.now && r.finishedAt == before.finishedAt
      && (m.MarkRunning? ==> r.status == Running && r.heartbeatAt == Some(s.now) && r.failureReason.None?)
      && (m.MarkAwaitingApproval? ==>
            r.status == AwaitingApproval && r.failureReason == Some(m.reason) && r.heartbeatAt == before.heartbeatAt)
  {
  }

  lemma StartedRunnerShows(g: Settings, s: State, id: TaskId)
    requires Possible(s, DoRunnerStart(id)) && !IsOver(s, id)
    ensures var s' := Next(g, s, DoRunnerStart(id));
      && s'.runners[id] == Runner.Active && s'.tasks[id].runtime.status == Running
      && s'.tasks[id].runtime.heartbeatAt == Some(s.now) && s'.tasks[id].runtime.updatedAt == s.now
  {
  }

  /** The worker leaves its pid and its times, and the command's pid and group, and nothing of the rest is touched. */
  lemma WorkerShows(g: Settings, s: State, id: TaskId, pid: int, grouped: bool)
    ensures Possible(s, DoWorkerBegin(id, pid)) ==>
      var r, before := Next(g, s, DoWorkerBegin(id, pid)).tasks[id].runtime, s.tasks[id].runtime;
      && r.status == Starting && r.workerPid == Some(pid)
      && r.startedAt == Some(s.now) && r.heartbeatAt == Some(s.now) && r.updatedAt == s.now
      && r.childPid == before.childPid && r.finishedAt == before.finishedAt && r.exitCode == before.exitCode
    ensures Possible(s, DoWorkerSpawned(id, pid, grouped)) ==>
      var r, before := Next(g, s, DoWorkerSpawned(id, pid, grouped)).tasks[id].runtime, s.tasks[id].runtime;
      && r.status == Running && r.childPid == Some(pid) && (r.childPgid == Some(pid) <==> grouped)
      && (r.childPgid.None? <==> !grouped) && r.heartbeatAt == Some(s.now) && r.updatedAt == s.now
      && r.workerPid == before.workerPid && r.startedAt == before.startedAt && r.finishedAt == before.finishedAt
    ensures Possible(s, DoWorkerHeartbeat(id)) ==>
      var r, before := Next(g, s, DoWorkerHeartbeat(id)).tasks[id].runtime, s.tasks[id].runtime;
      && (before.finishedAt.Some? ==> r == before)
      && (before.finishedAt.None? ==> r.heartbeatAt == Some(s.now) && r.updatedAt == s.now && r.status == before.status)
  {
  }

  /** Before it starts the command the worker looks for a request to end and for a command that cannot be started. */
  lemma CheckDecides(g: Settings, s: State, id: TaskId)
    requires Possible(s, DoWorkerCheck(id))
    ensures var s' := Next(g, s, DoWorkerCheck(id));
      var r, c := s'.tasks[id].runtime, s.tasks[id].control;
      && (c.killRequestedAt.Some? ==>
            && s'.workers[id] == Exited && r.status == Killed && r.interrupted && r.finishedAt == Some(s.now)
            && r.failureReason == Some(if c.killReason == "" then "Killed before command start" else c.killReason))
      && (c.killRequestedAt.None? && !s.tasks[id].spec.complete ==>
            && s'.workers[id] == Exited && r.status == Failed && r.finishedAt == Some(s.now) && r.failureReason.Some?)
      && (c.killRequestedAt.None? && s.tasks[id].spec.complete ==>
            s'.workers[id] == Spawning && s'.tasks == s.tasks)
  {
  }

  /** The manager's stamp and the worker's first write leave the same worker, whichever of them comes first. */
  lemma StampNeverHidesTheWorker(g: Settings, s: State, id: TaskId, pid: int, worker: int)
    requires Possible(s, DoWorkerBegin(id, worker)) && s.tasks[id].runtime.status == Created
    requires s.tasks[id].runtime.finishedAt.None?
    ensures var stamped := Next(g, s, DoStamp(id, pid));
      var begun := Next(g, s, DoWorkerBegin(id, worker));
      && stamped.tasks[id].runtime.status == Starting && stamped.tasks[id].runtime.workerPid == Some(pid)
      && stamped.tasks[id].runtime.updatedAt == s.now
      && Possible(stamped, DoWorkerBegin(id, worker)) && Possible(begun, DoStamp(id, pid))
      && Next(g, stamped, DoWorkerBegin(id, worker)).tasks == begun.tasks == Next(g, begun, DoStamp(id, pid)).tasks
  {
  }

  /** Only a new or a just started record is stamped. */
  lemma StampIff(g: Settings, s: State, id: TaskId, pid: int)
    requires Possible(s, DoStamp(id, pid))
    ensures var r, before := Next(g, s, DoStamp(id, pid)).tasks[id].runtime, s.tasks[id].runtime;
      if before.finishedAt.None? && (before.status == Created || (before.status == Starting && before.workerPid.None?))
      then r.status == Starting && r.workerPid == Some(pid) && r.updatedAt == s.now && r.heartbeatAt == before.heartbeatAt
      else r == before
  {
  }

  /** A worker goes from its start over its check to its command and ends; what it remembers is what it wrote. */
  lemma WorkerGoesOn(g: Settings, s: State, id: TaskId, pid: int, grouped: bool, reason: string)
    ensures Possible(s, DoWorkerBegin(id, pid)) ==>
      var s' := Next(g, s, DoWorkerBegin(id, pid)); s'.workers[id] == Begun(s'.tasks[id].runtime)
    ensures Possible(s, DoWorkerSpawned(id, pid, grouped)) ==>
      var s' := Next(g, s, DoWorkerSpawned(id, pid, grouped)); s'.workers[id] == Supervising(s'.tasks[id].runtime)
    ensures Possible(s, DoWorkerDie(id)) ==>
      var s' := Next(g, s, DoWorkerDie(id)); s'.workers[id] == Exited && s'.tasks == s.tasks
    ensures Possible(s, DoWorkerFail(id, reason)) ==>
      var s' := Next(g, s, DoWorkerFail(id, reason));
      var r := s'.tasks[id].runtime;
      && s'.workers[id] == Exited && r.status == Failed && r.failureReason == Some(reason)
      && r.finishedAt == Some(s.now) && r.updatedAt == s.now && r.exitCode == s.tasks[id].runtime.exitCode
  {
  }

  /** A runner closes, then leaves the live table as settled; one cancelled before its first step leaves unsettled. */
  lemma RunnerGoesOn(g: Settings, s: State, id: TaskId, m: Marking, later: nat)
    ensures Possible(s, DoRunnerExit(id, m)) ==>
      Next(g, s, DoRunnerExit(id, m)).runners[id] == Closing && Next(g, s, DoRunnerExit(id, m)).live == s.live
    ensures Possible(s, DoRunnerPop(id)) ==>
      var s' := Next(g, s, DoRunnerPop(id));
      s'.runners[id] == Gone(true) && s'.live == s.live - {id} && s'.tasks == s.tasks
    ensures Possible(s, DoRunnerCancelledEarly(id)) ==>
      var s' := Next(g, s, DoRunnerCancelledEarly(id));
      s'.runners[id] == Gone(false) && s'.live == s.live - {id} && s'.tasks == s.tasks
    ensures Next(g, s, DoTick(later)) == s.(now := s.now + later)
  {
  }

  /** With the process its runners are gone; they had settled their tasks only if they were closing or gone before. */
  lemma RestartLosesRunners(g: Settings, s: State, id: TaskId)
    ensures var s' := Next(g, s, DoRestart);
      && s'.live == {} && s'.tasks == s.tasks && s'.workers == s.workers && (id in s'.runners <==> id in s.runners)
      && (id in s.runners ==>
            s'.runners[id].Gone? && (s'.runners[id].settled <==> s.runners[id] == Closing || s.runners[id] == Gone(true)))
  {
  }

  // ---- Recovery ----

  /** The latest sign of life: a heartbeat, the start, the last update or the creation; a time of zero is no sign. */
  function LastSign(t: Task): int {
    var r := t.runtime;
    if r.heartbeatAt.Some? && r.heartbeatAt != Some(0) then r.heartbeatAt.value
    else if r.startedAt.Some? && r.startedAt != Some(0) then r.startedAt.value
    else if r.updatedAt != 0 then r.updatedAt
    else t.spec.createdAt
  }

  /**
   Recovery closes exactly the open agent tasks without a runner and the open shell tasks silent for longer than the
   limit: as killed if their end was asked for, as lost otherwise.
   */
  lemma RecoveryCloses(g: Settings, s: State, root: bool, id: TaskId)
    requires id in s.tasks
    ensures var s', t := Next(g, s, DoRecover(root)), s.tasks[id];
      var given := !IsOver(s, id) && (t.spec.kind == Agent ==> !root || id !in s.live)
                && (t.spec.kind == Bash ==> s.now - LastSign(t) > g.staleAfter);
      && s'.tasks.Keys == s.tasks.Keys && (id in s'.closed <==> id in s.closed || given)
      && (!given ==> s'.tasks[id] == t)
      && (given ==>
            var r := s'.tasks[id].runtime;
            && s'.tasks[id].spec == t.spec && s'.tasks[id].control == t.control
            && r.finishedAt == Some(s.now) && r.updatedAt == s.now && r.failureReason.Some?
            && (t.spec.kind == Bash && t.control.killRequestedAt.Some? ==>
                  && r.status == Killed && r.interrupted
                  && r.failureReason.value == (if t.control.killReason == "" then "Killed during recovery"
                                               else t.control.killReason))
            && (t.spec.kind == Agent || t.control.killRequestedAt.None? ==>
                  && r.status == Lost && r.interrupted == t.runtime.interrupted
                  && r.failureReason.value ==
                     if t.spec.kind == Agent then "In-process background agent is no longer running"
                     else if t.runtime.heartbeatAt.None? then "Background worker never heartbeat after startup"
                     else "Background worker heartbeat expired"))
  {
  }

  /** A worker that keeps writing keeps its task: recovery within the limit after any of its writes does not close it. */
  lemma WorkingTaskIsNotClosed(g: Settings, s: State, e: Event, root: bool, later: nat)
    requires Possible(s, e) && (e.DoWorkerBegin? || e.DoWorkerSpawned? || e.DoWorkerHeartbeat?) && s.now != 0
    requires e.DoWorkerHeartbeat? ==> s.tasks[e.id].runtime.finishedAt.None?
    requires later <= g.staleAfter && e.id !in s.closed
    ensures var working := Next(g, Next(g, s, e), DoTick(later));
      var recovered := Next(g, working, DoRecover(root));
      recovered.tasks[e.id] == working.tasks[e.id] && e.id !in recovered.closed
  {
    var working := Next(g, Next(g, s, e), DoTick(later));
    WorkerShows(g, s, e.id, if e.DoWorkerHeartbeat? then 0 else e.pid, if e.DoWorkerSpawned? then e.grouped else false);
    RecoveryCloses(g, working, root, e.id);
  }
}
