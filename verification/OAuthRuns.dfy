/**
 Whole runs of the refresh protocol: the file never goes backward, what a refusal and a tombstone mean, when a rotation
 is lost, and what holds when every process gets the file lock.
 */
module OAuthRuns {
  import opened Wrappers
  import opened OAuthRefresh

  // ---- What every run keeps, and when a rotation is lost ----

  /** The file's token and the server's never part, whoever refreshes without the lock. */
  lemma FileNeverGoesBack(disk: Token, now: real, events: seq<Event>)
    requires Runs(Opened(disk, now), events) && LosesNothing(Opened(disk, now), events)
    ensures var s := Run(Opened(disk, now), events);
      && disk.refresh <= s.disk.refresh <= s.current <= s.disk.refresh + 1
      && (s.current != s.disk.refresh <==> exists c :: HoldsRotation(s, c))
  {
    OpenedIsInv(disk, now);
    RunKeepsInv(Opened(disk, now), events);
  }

  /** A step breaks the invariant exactly when it drops an answered call before its token is saved. */
  lemma OnlyALostRotationBreaksInv(s: State, e: Event)
    requires Inv(s) && Enabled(s, e)
    ensures Inv(Next(s, e)) <==> !LosesRotation(s, e)
  {
    if LosesRotation(s, e) {
      var s' := Next(s, e);
      assert HoldsRotation(s, e.call);
      forall c ensures !HoldsRotation(s', c) {
        assert c != e.call && HoldsRotation(s', c) ==> HoldsRotation(s, c);
      }
    } else {
      NextKeepsInv(s, e);
    }
  }

  /** Nothing in the system can still reach the server's current token. */
  ghost predicate Lost(s: State) {
    && s.disk.refresh < s.current
    && (forall c :: !HoldsRotation(s, c))
    && (forall c | c in s.calls :: Claimed(s.calls[c].phase) <= s.disk.refresh)
  }

  lemma DroppingAnAnswerLoses(s: State, c: CallId)
    requires Inv(s) && HoldsRotation(s, c)
    ensures Lost(Next(s, DoDrop(c)))
  {
    var s' := Next(s, DoDrop(c));
    forall d ensures !HoldsRotation(s', d) {
      assert d != c && HoldsRotation(s', d) ==> HoldsRotation(s, d);
    }
  }

  lemma LostStepStaysLost(s: State, e: Event)
    requires Lost(s) && Enabled(s, e)
    ensures Lost(Next(s, e)) && Next(s, e).disk == s.disk && Next(s, e).current == s.current
    ensures e.DoAnswer? ==> s.calls[e.call].phase.refresh < s.current
  {
    var s' := Next(s, e);
    if e.DoSave? {
      assert HoldsRotation(s, e.call);
    }
    forall c ensures !HoldsRotation(s', c) {
      assert !HoldsRotation(s, c);
    }
  }

  /** After a lost rotation no run changes the file again, and the server refuses whatever it is asked. */
  lemma {:induction false} LostForGood(s: State, events: seq<Event>)
    requires Lost(s) && Runs(s, events)
    ensures Run(s, events).disk == s.disk && Run(s, events).current == s.current
    ensures forall refresh | refresh in Presented(s, events) :: refresh < s.current
    decreases |events|
  {
    if events != [] {
      LostStepStaysLost(s, events[0]);
      LostForGood(Next(s, events[0]), events[1..]);
    }
  }

  /**
   A presented token is refused exactly when the file has moved on since the call read it, or another call holds a
   rotation it has not saved yet.
   */
  lemma RefusedIffOvertaken(s: State, c: CallId, access: string, expiresIn: real)
    requires Inv(s) && Enabled(s, DoAnswer(c, access, expiresIn))
    ensures var s' := Next(s, DoAnswer(c, access, expiresIn));
      s'.calls[c].phase.Refused? <==>
      s.calls[c].phase.refresh < s.disk.refresh || exists d :: HoldsRotation(s, d)
  {
  }

  /** A process suppresses the token in the file only while some call holds its successor. */
  lemma SuppressedTokenHasASuccessor(s: State, call: Call)
    requires Inv(s) && IsSuppressed(LocalOf(s, call), s.disk.refresh)
    ensures s.disk.refresh < s.current
    ensures exists c :: HoldsRotation(s, c)
  {
    assert s.rejected[call.process].refresh < s.current;
  }

  /** Saving that successor lifts the suppression in every process. */
  lemma SavingLiftsSuppression(s: State, c: CallId, call: Call)
    requires Inv(s) && Enabled(s, DoSave(c))
    ensures !IsSuppressed(LocalOf(Next(s, DoSave(c)), call), Next(s, DoSave(c)).disk.refresh)
  {
    assert HoldsRotation(s, c);
    if call.process in s.rejected {
      assert s.rejected[call.process].refresh < s.current;
    }
  }

  lemma ReadRenewsCaches(s: State, e: Event, m: ManagerId)
    requires Inv(s) && Allowed(s, e) && m in Next(s, e).cached
    requires e.DoStart? || e.DoPrepare? || e.DoCheck?
    ensures (m in s.cached && Next(s, e).cached[m] == s.cached[m]) || s.disk.refresh <= Next(s, e).cached[m].refresh
  {
  }

  lemma AnswerRenewsCaches(s: State, e: Event, m: ManagerId)
    requires Inv(s) && Allowed(s, e) && m in Next(s, e).cached
    requires e.DoRecheck? || e.DoSave? || e.DoSettle?
    ensures (m in s.cached && Next(s, e).cached[m] == s.cached[m]) || s.disk.refresh <= Next(s, e).cached[m].refresh
  {
    if e.DoSave? {
      assert HoldsRotation(s, e.call);
    }
  }

  lemma StepRenewsCaches(s: State, e: Event, m: ManagerId)
    requires Inv(s) && Allowed(s, e) && m in Next(s, e).cached
    ensures (m in s.cached && Next(s, e).cached[m] == s.cached[m]) || s.disk.refresh <= Next(s, e).cached[m].refresh
  {
    if e.DoStart? || e.DoPrepare? || e.DoCheck? {
      ReadRenewsCaches(s, e, m);
    } else if e.DoRecheck? || e.DoSave? || e.DoSettle? {
      AnswerRenewsCaches(s, e, m);
    }
  }

  /** A manager's cached token is kept or replaced by one that is no older, even after it was cleared in between. */
  lemma {:induction false} CachesNeverGoBack(s: State, events: seq<Event>, m: ManagerId)
    requires Inv(s) && Runs(s, events) && LosesNothing(s, events)
    requires m in Run(s, events).cached
    ensures var token := Run(s, events).cached[m];
      (m in s.cached && token == s.cached[m]) || s.disk.refresh <= token.refresh
    ensures m in s.cached ==> s.cached[m].refresh <= Run(s, events).cached[m].refresh
    decreases |events|
  {
    if events != [] {
      var next := Next(s, events[0]);
      NextKeepsInv(s, events[0]);
      CachesNeverGoBack(next, events[1..], m);
      if m in next.cached && Run(s, events).cached[m] == next.cached[m] {
        StepRenewsCaches(s, events[0], m);
      }
    }
  }

  // ---- Only stale tokens are refreshed ----

  lemma {:induction false} RunSplits(s: State, events: seq<Event>, k: nat)
    requires Runs(s, events) && k < |events|
    ensures Runs(s, events[..k]) && Runs(s, events[..k + 1])
    ensures Enabled(Run(s, events[..k]), events[k])
    ensures Run(s, events[..k + 1]) == Next(Run(s, events[..k]), events[k])
    decreases |events|
  {
    if k > 0 {
      RunSplits(Next(s, events[0]), events[1..], k - 1);
      assert events[1..][..k - 1] == events[..k][1..] && events[1..][..k] == events[..k + 1][1..];
    }
  }

  /** An unforced call that is on its way to the server with a refresh token. */
  predicate Pursues(s: State, c: CallId, refresh: nat) {
    && c in s.calls && !s.calls[c].force
    && (s.calls[c].phase.Waiting? || s.calls[c].phase.Locked? || s.calls[c].phase.Posting?)
    && s.calls[c].phase.refresh == refresh
  }

  predicate IsLook(e: Event, c: CallId) {
    e == DoCheck(c) || e == DoRecheck(c)
  }

  /** The last look of the call at the file is event `k`, and it saw this token run out. */
  ghost predicate LastSawItRunOut(s: State, events: seq<Event>, k: nat, c: CallId, refresh: nat)
    requires k < |events| && Runs(s, events[..k])
  {
    var t := Run(s, events[..k]);
    && IsLook(events[k], c) && (forall j | k < j < |events| :: !IsLook(events[j], c))
    && t.disk.refresh == refresh && RunsOut(t.disk, t.now)
  }

  lemma OnlyALookPursues(s: State, e: Event, c: CallId, refresh: nat)
    requires Enabled(s, e) && Pursues(Next(s, e), c, refresh)
    ensures if IsLook(e, c) then s.disk.refresh == refresh && RunsOut(s.disk, s.now) else Pursues(s, c, refresh)
  {
    if e.DoCheck? {
      CheckRefreshesIff(LocalOf(s, s.calls[e.call]), s.disk, s.calls[e.call].force, s.now);
    } else if e.DoRecheck? {
      var call := s.calls[e.call];
      RecheckRefreshesIff(LocalOf(s, call), s.disk, call.phase.refresh, call.force, s.now);
    }
  }

  lemma StillTheLastLook(s: State, events: seq<Event>, e: Event, c: CallId, refresh: nat)
    requires !IsLook(e, c)
    requires exists k :: 0 <= k < |events| && Runs(s, events[..k]) && LastSawItRunOut(s, events, k, c, refresh)
    ensures var more := events + [e];
      exists k :: 0 <= k < |more| && Runs(s, more[..k]) && LastSawItRunOut(s, more, k, c, refresh)
  {
    var k :| 0 <= k < |events| && Runs(s, events[..k]) && LastSawItRunOut(s, events, k, c, refresh);
    var more := events + [e];
    assert more[..k] == events[..k];
    assert LastSawItRunOut(s, more, k, c, refresh);
  }

  /** In every run, whoever asks the server without being forced saw that very token run out at its last look. */
  lemma {:induction false} OnlyStaleTokensAreRefreshed(s: State, events: seq<Event>, c: CallId, refresh: nat)
    requires Runs(s, events) && c !in s.calls && Pursues(Run(s, events), c, refresh)
    ensures exists k :: 0 <= k < |events| && Runs(s, events[..k]) && LastSawItRunOut(s, events, k, c, refresh)
    decreases |events|
  {
    if events != [] {
      var last := |events| - 1;
      var before := events[..last];
      RunSplits(s, events, last);
      assert events[..last + 1] == events && before + [events[last]] == events;
      OnlyALookPursues(Run(s, before), events[last], c, refresh);
      if IsLook(events[last], c) {
        assert LastSawItRunOut(s, events, last, c, refresh);
      } else {
        OnlyStaleTokensAreRefreshed(s, before, c, refresh);
        StillTheLastLook(s, before, events[last], c, refresh);
      }
    }
  }

  // ---- Runs in which every process gets the lock ----

  predicate NeverFallsBack(events: seq<Event>) {
    forall e | e in events :: !e.DoFallBack?
  }

  /** Only the holder of the lock talks to the server, and it presents the current token. */
  ghost predicate Orderly(s: State) {
    && (forall c | c in s.calls && s.calls[c].phase.Posting? ::
          s.calls[c].phase.locked && s.calls[c].phase.refresh == s.current)
    && (forall c | c in s.calls && s.calls[c].phase.Refreshed? :: s.calls[c].phase.locked)
    && (forall c | c in s.calls :: !s.calls[c].phase.Refused?)
    && s.rejected == map[]
  }

  lemma AdvanceKeepsOrder(s: State, c: CallId, call: Call, result: (Local, Phase))
    requires Orderly(s) && result.0.rejected.None?
    requires !result.1.Refused? && !result.1.Refreshed?
    requires result.1.Posting? ==> result.1.locked && result.1.refresh == s.current
    ensures Orderly(Advance(s, c, call, result))
  {
  }

  lemma OneCallUsesLock(s: State, c: CallId, d: CallId)
    requires LockIsExclusive(s) && c in s.calls && UsesLock(s.calls[c].phase)
    ensures d in s.calls && UsesLock(s.calls[d].phase) ==> d == c
  {
  }

  lemma RecheckIsOrderly(s: State, c: CallId)
    requires Inv(s) && Orderly(s) && Enabled(s, DoRecheck(c))
    ensures Orderly(Next(s, DoRecheck(c)))
  {
    forall d ensures !HoldsRotation(s, d) {
      OneCallUsesLock(s, c, d);
    }
    var call := s.calls[c];
    AdvanceKeepsOrder(s, c, call, Recheck(LocalOf(s, call), s.disk, call.phase.refresh, call.force, s.now));
  }

  lemma ServerIsOrderly(s: State, e: Event)
    requires Inv(s) && Orderly(s) && Enabled(s, e)
    requires e.DoAnswer? || e.DoSave?
    ensures Orderly(Next(s, e))
  {
    forall d | d in s.calls && d != e.call ensures !UsesLock(s.calls[d].phase) {
      OneCallUsesLock(s, e.call, d);
    }
  }

  lemma NextIsOrderly(s: State, e: Event)
    requires Inv(s) && Orderly(s) && Allowed(s, e) && !e.DoFallBack?
    ensures Orderly(Next(s, e))
  {
    match e {
      case DoRecheck(c) => RecheckIsOrderly(s, c);
      case DoAnswer(c, _, _) => ServerIsOrderly(s, e);
      case DoSave(c) => ServerIsOrderly(s, e);
      case DoStart(c, manager, process, force) =>
        var call := Call(manager, process, force, Loaded);
        AdvanceKeepsOrder(s, c, call, Load(LocalOf(s, call), s.disk, force, s.now));
      case DoPrepare(c) => AdvanceKeepsOrder(s, c, s.calls[c], Prepare(LocalOf(s, s.calls[c]), s.disk));
      case DoCheck(c) =>
        AdvanceKeepsOrder(s, c, s.calls[c], Check(LocalOf(s, s.calls[c]), s.disk, s.calls[c].force, s.now));
      case DoFail(c, retryable) =>
        AdvanceKeepsOrder(s, c, s.calls[c], (LocalOf(s, s.calls[c]), Done(s.calls[c].force)));
      case DoDrop(c) => AdvanceKeepsOrder(s, c, s.calls[c], (LocalOf(s, s.calls[c]), Done(true)));
      case _ =>
    }
  }

  /**
   When every process gets the lock, the tokens presented over a whole run are the current one and its successors,
   each presented for an answer once: no refresh is refused, and no process ever makes a tombstone.
   */
  lemma {:induction false} LockedRunsPresentEachTokenOnce(s: State, events: seq<Event>)
    requires Inv(s) && Orderly(s)
    requires Runs(s, events) && LosesNothing(s, events) && NeverFallsBack(events)
    ensures forall i | 0 <= i < |Presented(s, events)| :: Presented(s, events)[i] == s.current + i
    ensures Run(s, events).current == s.current + |Presented(s, events)|
    ensures Orderly(Run(s, events))
    decreases |events|
  {
    if events != [] {
      NextKeepsInv(s, events[0]);
      NextIsOrderly(s, events[0]);
      LockedRunsPresentEachTokenOnce(Next(s, events[0]), events[1..]);
    }
  }

  lemma LockedRunsFromTheStart(disk: Token, now: real, events: seq<Event>)
    requires Runs(Opened(disk, now), events)
    requires LosesNothing(Opened(disk, now), events) && NeverFallsBack(events)
    ensures var asked := Presented(Opened(disk, now), events);
      forall i | 0 <= i < |asked| :: asked[i] == disk.refresh + i
    ensures Run(Opened(disk, now), events).rejected == map[]
  {
    OpenedIsInv(disk, now);
    LockedRunsPresentEachTokenOnce(Opened(disk, now), events);
  }

  /** With one fallback the holder of the lock can be refused, and its process then suppresses the token. */
  lemma OneFallbackCanRefuseTheHolder(s: State, c: CallId, d: CallId, access: string, expiresIn: real)
    requires Inv(s) && c in s.calls && d in s.calls
    requires s.calls[c].phase.Posting? && s.calls[c].phase.locked && s.calls[c].phase.refresh == s.current
    requires s.calls[d].phase == Waiting(s.current)
    ensures var events := [DoFallBack(d), DoAnswer(d, access, expiresIn), DoAnswer(c, access, expiresIn), DoSettle(c)];
      && Runs(s, events) && LosesNothing(s, events)
      && s.calls[c].process in Run(s, events).rejected
      && Run(s, events).rejected[s.calls[c].process].refresh == s.disk.refresh
  {
    var e0, e1 := DoFallBack(d), DoAnswer(d, access, expiresIn);
    var e2, e3 := DoAnswer(c, access, expiresIn), DoSettle(c);
    var s1 := Next(s, e0);
    var s2 := Next(s1, e1);
    var s3 := Next(s2, e2);
    assert Claimed(s.calls[c].phase) == s.current;
    RunPrepends(s3, e3, []);
    RunPrepends(s2, e2, [e3]);
    RunPrepends(s1, e1, [e2, e3]);
    RunPrepends(s, e0, [e1, e2, e3]);
    assert [e0] + [e1, e2, e3] == [e0, e1, e2, e3] && [e1] + [e2, e3] == [e1, e2, e3];
    assert [e2] + [e3] == [e2, e3] && [e3] + [] == [e3];
  }

  lemma RunPrepends(s: State, e: Event, events: seq<Event>)
    requires Allowed(s, e) && Runs(Next(s, e), events) && LosesNothing(Next(s, e), events)
    ensures Runs(s, [e] + events) && LosesNothing(s, [e] + events)
    ensures Run(s, [e] + events) == Run(Next(s, e), events)
  {
    assert ([e] + events)[1..] == events;
  }

  lemma {:induction false} RunAppends(s: State, events: seq<Event>, more: seq<Event>)
    requires Runs(s, events) && LosesNothing(s, events)
    requires Runs(Run(s, events), more) && LosesNothing(Run(s, events), more)
    ensures Runs(s, events + more) && LosesNothing(s, events + more)
    ensures Run(s, events + more) == Run(Run(s, events), more)
    decreases |events|
  {
    if events == [] {
      assert events + more == more;
    } else {
      RunAppends(Next(s, events[0]), events[1..], more);
      RunPrepends(s, events[0], events[1..] + more);
      assert events + more == [events[0]] + (events[1..] + more);
    }
  }

  /** What a call does until it needs the file lock, if it does. */
  function ToTheLock(c: CallId, manager: ManagerId, process: ProcessId, force: bool): seq<Event> {
    [DoStart(c, manager, process, force), DoPrepare(c), DoCheck(c)]
  }

  /** The calls are where they were but for one, and nothing that other calls look at has changed. */
  ghost predicate OnlyMoves(s: State, t: State, c: CallId, call: Call) {
    && t.disk == s.disk && t.holder == s.holder && t.current == s.current && t.now == s.now
    && t.rejected == s.rejected && t.calls == s.calls[c := call]
  }

  lemma GetsQueued(s: State, c: CallId, manager: ManagerId, process: ProcessId, force: bool)
    requires s.disk.refresh != NO_TOKEN && process !in s.rejected && c !in s.calls && s.holder != Some(c)
    ensures var events := [DoStart(c, manager, process, force), DoPrepare(c)];
      && Runs(s, events) && LosesNothing(s, events)
      && OnlyMoves(s, Run(s, events), c, Call(manager, process, force, Queued))
  {
    var e0, e1 := DoStart(c, manager, process, force), DoPrepare(c);
    var s1 := Next(s, e0);
    assert OnlyMoves(s, s1, c, Call(manager, process, force, Loaded));
    RunPrepends(s1, e1, []);
    RunPrepends(s, e0, [e1]);
    assert [e0] + [e1] == [e0, e1] && [e1] + [] == [e1];
  }

  lemma ChecksIff(s: State, c: CallId)
    requires s.disk.refresh != NO_TOKEN && c in s.calls && s.calls[c].phase == Queued
    requires s.calls[c].process !in s.rejected && s.holder != Some(c)
    ensures var phase := if s.calls[c].force || RunsOut(s.disk, s.now) then Waiting(s.disk.refresh) else Done(false);
      OnlyMoves(s, Next(s, DoCheck(c)), c, s.calls[c].(phase := phase))
  {
    CheckRefreshesIff(LocalOf(s, s.calls[c]), s.disk, s.calls[c].force, s.now);
  }

  /** A call of a process without a tombstone needs the lock exactly when it is forced or the token runs out. */
  lemma ReachesTheLockIff(s: State, c: CallId, manager: ManagerId, process: ProcessId, force: bool)
    requires s.disk.refresh != NO_TOKEN && process !in s.rejected && c !in s.calls && s.holder != Some(c)
    ensures var events := ToTheLock(c, manager, process, force);
      var phase := if force || RunsOut(s.disk, s.now) then Waiting(s.disk.refresh) else Done(false);
      && Runs(s, events) && LosesNothing(s, events)
      && OnlyMoves(s, Run(s, events), c, Call(manager, process, force, phase))
  {
    var start := [DoStart(c, manager, process, force), DoPrepare(c)];
    GetsQueued(s, c, manager, process, force);
    var queued := Run(s, start);
    ChecksIff(queued, c);
    RunPrepends(queued, DoCheck(c), []);
    assert [DoCheck(c)] + [] == [DoCheck(c)];
    RunAppends(s, start, [DoCheck(c)]);
    assert start + [DoCheck(c)] == ToTheLock(c, manager, process, force);
  }

  /** A waiting call that gets the lock asks the server exactly when it is forced or the token still runs out. */
  lemma ReachesTheServerIff(s: State, c: CallId)
    requires s.holder.None? && c in s.calls && s.calls[c].phase == Waiting(s.disk.refresh)
    requires s.calls[c].process !in s.rejected
    ensures var events := [DoLock(c), DoRecheck(c)];
      var asks := s.calls[c].force || RunsOut(s.disk, s.now);
      var phase := if asks then Posting(s.disk.refresh, true, 0) else Done(false);
      && Runs(s, events) && LosesNothing(s, events)
      && var t := Run(s, events);
         && t.disk == s.disk && t.current == s.current && t.now == s.now && t.rejected == s.rejected
         && t.holder == (if asks then Some(c) else None) && t.calls == s.calls[c := s.calls[c].(phase := phase)]
  {
    var e0, e1 := DoLock(c), DoRecheck(c);
    var s1 := Next(s, e0);
    assert s1.calls == s.calls[c := s.calls[c].(phase := Locked(s.disk.refresh))];
    RecheckRefreshesIff(LocalOf(s1, s1.calls[c]), s.disk, s.disk.refresh, s.calls[c].force, s.now);
    assert Next(s1, e1).rejected == s.rejected;
    RunPrepends(s1, e1, []);
    RunPrepends(s, e0, [e1]);
    assert [e0] + [e1] == [e0, e1] && [e1] + [] == [e1];
  }

  /**
   The whole run from the opening state: one call gets the lock and is about to ask the server, another falls back and
   rotates the token first; the holder is refused and its process suppresses the token that is still in the file.
   The calls belong to two managers: calls of one manager are kept apart by its own lock.
   */
  lemma OneFallbackFromTheStart(disk: Token, now: real, c: CallId, d: CallId, manager: ManagerId, process: ProcessId,
                                manager': ManagerId, process': ProcessId, access: string, expiresIn: real)
    requires disk.refresh != NO_TOKEN && c != d && manager != manager'
    ensures var s := Opened(disk, now);
      var events := ToTheLock(c, manager, process, true) + ([DoLock(c), DoRecheck(c)] + (ToTheLock(d, manager', process', true) +
        [DoFallBack(d), DoAnswer(d, access, expiresIn), DoAnswer(c, access, expiresIn), DoSettle(c)]));
      && Runs(s, events) && LosesNothing(s, events)
      && process in Run(s, events).rejected && Run(s, events).rejected[process].refresh == disk.refresh
  {
    var s0 := Opened(disk, now);
    var last := [DoFallBack(d), DoAnswer(d, access, expiresIn), DoAnswer(c, access, expiresIn), DoSettle(c)];
    OpenedIsInv(disk, now);
    ReachesTheLockIff(s0, c, manager, process, true);
    var s1 := Run(s0, ToTheLock(c, manager, process, true));
    ReachesTheServerIff(s1, c);
    var s2 := Run(s1, [DoLock(c), DoRecheck(c)]);
    ReachesTheLockIff(s2, d, manager', process', true);
    var s3 := Run(s2, ToTheLock(d, manager', process', true));
    RunKeepsInv(s0, ToTheLock(c, manager, process, true));
    RunKeepsInv(s1, [DoLock(c), DoRecheck(c)]);
    RunKeepsInv(s2, ToTheLock(d, manager', process', true));
    OneFallbackCanRefuseTheHolder(s3, c, d, access, expiresIn);
    RunAppends(s2, ToTheLock(d, manager', process', true), last);
    RunAppends(s1, [DoLock(c), DoRecheck(c)], ToTheLock(d, manager', process', true) + last);
    RunAppends(s0, ToTheLock(c, manager, process, true),
      [DoLock(c), DoRecheck(c)] + (ToTheLock(d, manager', process', true) + last));
  }
}
