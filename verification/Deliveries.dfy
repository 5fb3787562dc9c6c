/** Whole runs of the delivery machine: no early second hand-out, acknowledged for good, and draining by polling. */
module Deliveries {
  import opened Wrappers
  import opened Listings
  import opened Notifications

  // ---- One poll ----

  function SinkOf(s: Store, id: Id, sink: Sink): Option<SinkState> {
    if HasSink(s, id, sink) then Some(s.notes[id].sinks[sink]) else None
  }

  lemma RecoverSinkOf(s: Store, now: int, staleAfter: nat, id: Id, sink: Sink)
    ensures SinkOf(Recover(s, now, staleAfter), id, sink) ==
            if SinkOf(s, id, sink).Some? then Some(RecoverSink(SinkOf(s, id, sink).value, now, staleAfter)) else None
  {
  }

  lemma AckAllIsValid(s: Store, sink: Sink, ids: set<Id>, ackedAt: Id -> int)
    requires Valid(s)
    ensures var s' := AckAll(s, sink, ids, ackedAt);
      && Valid(s') && CreationTimes(s') == CreationTimes(s) && s'.order == s.order
      && (forall id :: StatusOf(s', id, sink) ==
                       if id in ids && HasSink(s, id, sink) then Some(Acked) else StatusOf(s, id, sink))
  {
  }

  lemma AckAllSparesOthers(s: Store, sink: Sink, ids: set<Id>, ackedAt: Id -> int, id: Id)
    ensures id !in ids ==> SinkOf(AckAll(s, sink, ids, ackedAt), id, sink) == SinkOf(s, id, sink)
  {
  }

  lemma ClaimAllSparesOthers(s: Store, ids: seq<Id>, sink: Sink, now: int, id: Id)
    ensures id !in ids ==> SinkOf(ClaimAll(s, ids, sink, now), id, sink) == SinkOf(s, id, sink)
  {
  }

  /** A poll acknowledges exactly the claimed notifications whose handler succeeded and leaves the others claimed. */
  lemma DeliverAcksTheHandled(s: Store, sink: Sink, limit: int, failing: set<Id>, clock: Clock, staleAfter: nat)
    requires Valid(s)
    ensures var recovered := Recover(s, clock.recoveredAt, staleAfter);
      var ids := Claims(recovered, sink, limit);
      var (s', delivered) := Deliver(s, sink, limit, failing, clock, staleAfter);
      && Valid(s') && s'.order == s.order && CreationTimes(s') == CreationTimes(s)
      && (forall id :: id in delivered <==> id in ids && id !in failing)
      && (forall id :: StatusOf(s', id, sink) ==
                       if id in ids then Some(if id in failing then Claimed else Acked)
                       else StatusOf(recovered, id, sink))
  {
    var recovered := Recover(s, clock.recoveredAt, staleAfter);
    var ids := Claims(recovered, sink, limit);
    RecoverIsValid(s, clock.recoveredAt, staleAfter);
    ClaimsArePending(recovered, sink, limit);
    ClaimAllIsValid(recovered, ids, sink, clock.now);
    AckAllIsValid(ClaimAll(recovered, ids, sink, clock.now), sink, Elements(ids) - failing, clock.ackedAt);
  }

  /** What a poll does not claim it leaves as recovery left it. */
  lemma DeliverSparesOthers(s: Store, sink: Sink, limit: int, failing: set<Id>, clock: Clock, staleAfter: nat, id: Id)
    ensures var recovered := Recover(s, clock.recoveredAt, staleAfter);
      id !in Claims(recovered, sink, limit) ==>
        SinkOf(Deliver(s, sink, limit, failing, clock, staleAfter).0, id, sink) == SinkOf(recovered, id, sink)
  {
    var recovered := Recover(s, clock.recoveredAt, staleAfter);
    var ids := Claims(recovered, sink, limit);
    ClaimAllSparesOthers(recovered, ids, sink, clock.now, id);
    AckAllSparesOthers(ClaimAll(recovered, ids, sink, clock.now), sink, Elements(ids) - failing, clock.ackedAt, id);
  }

  lemma {:induction false} SelectAll(ids: seq<Id>, keep: set<Id>)
    requires forall id | id in ids :: id in keep
    ensures Select(ids, keep) == ids
  {
    if ids != [] {
      assert ids[0] in ids;
      SelectAll(ids[1..], keep);
      assert ids == [ids[0]] + ids[1..];
    }
  }

  /** Taking the first due ids out of the pending set leaves the others due, in order. */
  lemma DueWithoutPrefix(s: Store, s': Store, sink: Sink, k: nat)
    requires Valid(s) && k <= |Due(s, sink)|
    requires s'.order == s.order && CreationTimes(s') == CreationTimes(s)
    requires PendingSet(s', sink) == PendingSet(s, sink) - Elements(Due(s, sink)[..k])
    ensures Due(s', sink) == Due(s, sink)[k..]
  {
    OldestFirstProperties(s);
    SelectWithoutPrefix(OldestFirst(s), PendingSet(s, sink), k);
  }

  lemma PendingLeft(s: Store, s': Store, sink: Sink, ids: seq<Id>)
    requires forall id :: StatusOf(s', id, sink) == if id in ids then Some(Acked) else StatusOf(s, id, sink)
    ensures PendingSet(s', sink) == PendingSet(s, sink) - Elements(ids)
  {
    forall id ensures id in PendingSet(s', sink) <==> id in PendingSet(s, sink) - Elements(ids) {
      assert id in PendingSet(s', sink) <==> StatusOf(s', id, sink) == Some(Pending);
      assert id in PendingSet(s, sink) <==> StatusOf(s, id, sink) == Some(Pending);
    }
  }

  // ---- Draining ----

  predicate IsStaleFor(s: Store, id: Id, sink: Sink, at: int, staleAfter: nat) {
    HasSink(s, id, sink) && IsStale(s.notes[id].sinks[sink], at, staleAfter)
  }

  /** The claims of a sink that a recovery would take back: those a failed handler or a lost reader left long ago. */
  function StaleSet(s: Store, sink: Sink, at: int, staleAfter: nat): set<Id> {
    set id | id in s.notes && IsStaleFor(s, id, sink, at, staleAfter)
  }

  /** Recovery at this time finds no claim of the sink to take back. */
  ghost predicate NothingStale(s: Store, sink: Sink, at: int, staleAfter: nat) {
    forall id :: !IsStaleFor(s, id, sink, at, staleAfter)
  }

  ghost predicate QuietAt(s: Store, sink: Sink, clocks: seq<Clock>, staleAfter: nat) {
    forall i | 0 <= i < |clocks| :: NothingStale(s, sink, clocks[i].recoveredAt, staleAfter)
  }

  lemma RecoverNothing(s: Store, sink: Sink, at: int, staleAfter: nat)
    requires NothingStale(s, sink, at, staleAfter)
    ensures forall id :: SinkOf(Recover(s, at, staleAfter), id, sink) == SinkOf(s, id, sink)
    ensures forall id :: StatusOf(Recover(s, at, staleAfter), id, sink) == StatusOf(s, id, sink)
  {
    forall id
      ensures SinkOf(Recover(s, at, staleAfter), id, sink) == SinkOf(s, id, sink)
      ensures StatusOf(Recover(s, at, staleAfter), id, sink) == StatusOf(s, id, sink)
    {
      assert !IsStaleFor(s, id, sink, at, staleAfter);
      RecoverSinkOf(s, at, staleAfter, id, sink);
    }
  }

  lemma RecoveringNothingKeepsDue(s: Store, sink: Sink, at: int, staleAfter: nat)
    requires Valid(s) && NothingStale(s, sink, at, staleAfter)
    ensures Due(Recover(s, at, staleAfter), sink) == Due(s, sink)
  {
    RecoverIsValid(s, at, staleAfter);
    RecoverNothing(s, sink, at, staleAfter);
    assert PendingSet(Recover(s, at, staleAfter), sink) == PendingSet(s, sink);
  }

  lemma PollStatuses(s: Store, sink: Sink, limit: int, clock: Clock, staleAfter: nat)
    requires Valid(s) && NothingStale(s, sink, clock.recoveredAt, staleAfter)
    ensures var ids := Claims(s, sink, limit);
      var (s', delivered) := Deliver(s, sink, limit, {}, clock, staleAfter);
      && Valid(s') && s'.order == s.order && CreationTimes(s') == CreationTimes(s) && delivered == ids
      && (forall id :: StatusOf(s', id, sink) == if id in ids then Some(Acked) else StatusOf(s, id, sink))
  {
    RecoveringNothingKeepsDue(s, sink, clock.recoveredAt, staleAfter);
    RecoverNothing(s, sink, clock.recoveredAt, staleAfter);
    var ids := Claims(s, sink, limit);
    DeliverAcksTheHandled(s, sink, limit, {}, clock, staleAfter);
    SelectAll(ids, Elements(ids) - {});
  }

  /** A poll makes no claim stale that was not: what it claims it acknowledges, and the others keep their times. */
  lemma PollStaysQuiet(s: Store, sink: Sink, limit: int, clock: Clock, staleAfter: nat, later: int)
    requires Valid(s) && NothingStale(s, sink, clock.recoveredAt, staleAfter) && NothingStale(s, sink, later, staleAfter)
    ensures NothingStale(Deliver(s, sink, limit, {}, clock, staleAfter).0, sink, later, staleAfter)
  {
    var s' := Deliver(s, sink, limit, {}, clock, staleAfter).0;
    PollStatuses(s, sink, limit, clock, staleAfter);
    RecoveringNothingKeepsDue(s, sink, clock.recoveredAt, staleAfter);
    RecoverNothing(s, sink, clock.recoveredAt, staleAfter);
    forall id ensures !IsStaleFor(s', id, sink, later, staleAfter) {
      assert !IsStaleFor(s, id, sink, later, staleAfter);
      DeliverSparesOthers(s, sink, limit, {}, clock, staleAfter, id);
      OthersStayFresh(s, s', Claims(s, sink, limit), id, sink, later, staleAfter);
    }
  }

  lemma OthersStayFresh(s: Store, s': Store, ids: seq<Id>, id: Id, sink: Sink, later: int, staleAfter: nat)
    requires !IsStaleFor(s, id, sink, later, staleAfter)
    requires StatusOf(s', id, sink) == if id in ids then Some(Acked) else StatusOf(s, id, sink)
    requires id !in ids ==> SinkOf(s', id, sink) == SinkOf(s, id, sink)
    ensures !IsStaleFor(s', id, sink, later, staleAfter)
  {
  }

  lemma DueAfterPoll(s: Store, s': Store, sink: Sink, limit: int)
    requires Valid(s)
    requires s'.order == s.order && CreationTimes(s') == CreationTimes(s)
    requires forall id :: StatusOf(s', id, sink) ==
                          if id in Claims(s, sink, limit) then Some(Acked) else StatusOf(s, id, sink)
    ensures Due(s', sink) == Due(s, sink)[BatchSize(limit, |Due(s, sink)|)..]
  {
    PendingLeft(s, s', sink, Claims(s, sink, limit));
    DueWithoutPrefix(s, s', sink, BatchSize(limit, |Due(s, sink)|));
  }

  /** With nothing to recover and no failing handler, a poll hands out the first due ones and leaves the rest. */
  lemma PollTakesThePrefix(s: Store, sink: Sink, limit: int, clock: Clock, staleAfter: nat)
    requires Valid(s) && NothingStale(s, sink, clock.recoveredAt, staleAfter)
    ensures var (s', delivered) := Deliver(s, sink, limit, {}, clock, staleAfter);
      var k := BatchSize(limit, |Due(s, sink)|);
      Valid(s') && delivered == Due(s, sink)[..k] && Due(s', sink) == Due(s, sink)[k..]
  {
    PollStatuses(s, sink, limit, clock, staleAfter);
    DueAfterPoll(s, Deliver(s, sink, limit, {}, clock, staleAfter).0, sink, limit);
  }

  /** Polls in a row whose handlers all succeed: the stores before and after, what each handed out, and when. */
  ghost predicate ArePolls(stores: seq<Store>, batches: seq<seq<Id>>, clocks: seq<Clock>, sink: Sink, limit: int,
                           staleAfter: nat) {
    && |stores| == |batches| + 1 && |clocks| == |batches|
    && forall i, j | 0 <= i < |batches| && j == i + 1 ::
         IsPoll(stores[i], stores[j], batches[i], clocks[i], sink, limit, staleAfter)
  }

  ghost predicate IsPoll(s: Store, s': Store, batch: seq<Id>, clock: Clock, sink: Sink, limit: int, staleAfter: nat) {
    Deliver(s, sink, limit, {}, clock, staleAfter) == (s', batch)
  }

  function Joined(batches: seq<seq<Id>>): seq<Id> {
    if batches == [] then [] else batches[0] + Joined(batches[1..])
  }

  lemma OnePoll(s: Store, s': Store, batch: seq<Id>, clocks: seq<Clock>, sink: Sink, limit: int, staleAfter: nat)
    requires clocks != [] && Valid(s) && QuietAt(s, sink, clocks, staleAfter)
    requires IsPoll(s, s', batch, clocks[0], sink, limit, staleAfter)
    ensures Valid(s') && QuietAt(s', sink, clocks, staleAfter)
    ensures var k := BatchSize(limit, |Due(s, sink)|);
      batch == Due(s, sink)[..k] && Due(s', sink) == Due(s, sink)[k..]
  {
    assert NothingStale(s, sink, clocks[0].recoveredAt, staleAfter);
    PollTakesThePrefix(s, sink, limit, clocks[0], staleAfter);
    forall i | 0 <= i < |clocks| ensures NothingStale(s', sink, clocks[i].recoveredAt, staleAfter) {
      PollStaysQuiet(s, sink, limit, clocks[0], staleAfter, clocks[i].recoveredAt);
    }
  }

  lemma LaterPolls(stores: seq<Store>, batches: seq<seq<Id>>, clocks: seq<Clock>, sink: Sink, limit: int,
                   staleAfter: nat)
    requires batches != [] && ArePolls(stores, batches, clocks, sink, limit, staleAfter)
    ensures IsPoll(stores[0], stores[1], batches[0], clocks[0], sink, limit, staleAfter)
    ensures ArePolls(stores[1..], batches[1..], clocks[1..], sink, limit, staleAfter)
  {
    var later, rest, times := stores[1..], batches[1..], clocks[1..];
    forall i, j | 0 <= i < |rest| && j == i + 1
      ensures IsPoll(later[i], later[j], rest[i], times[i], sink, limit, staleAfter)
    {
      assert IsPoll(stores[i + 1], stores[j + 1], batches[i + 1], clocks[i + 1], sink, limit, staleAfter);
    }
  }

  /** How many of the due notifications a number of polls reaches. */
  function Reach(limit: nat, polls: nat, due: nat): (r: nat)
    ensures r <= due
  {
    if polls == 0 then 0
    else BatchSize(limit, due) + Reach(limit, polls - 1, due - BatchSize(limit, due))
  }

  lemma {:induction false} ReachIsTheProduct(limit: nat, polls: nat, due: nat)
    requires limit >= 1
    ensures Reach(limit, polls, due) == if polls * limit <= due then polls * limit else due
    decreases polls
  {
    if polls > 0 {
      ReachIsTheProduct(limit, polls - 1, due - BatchSize(limit, due));
      assert polls * limit == (polls - 1) * limit + limit;
      if due < limit {
        TimesGrows(0, polls - 1, limit);
      }
    }
  }

  lemma TimesGrows(a: nat, b: nat, limit: nat)
    requires a <= b
    ensures a * limit <= b * limit
  {
    assert b * limit == a * limit + (b - a) * limit;
  }

  lemma {:induction false} PollsReach(stores: seq<Store>, batches: seq<seq<Id>>, clocks: seq<Clock>, sink: Sink,
                                      limit: nat, staleAfter: nat, n: nat)
    requires limit >= 1 && ArePolls(stores, batches, clocks, sink, limit, staleAfter) && |batches| == n
    requires Valid(stores[0]) && QuietAt(stores[0], sink, clocks, staleAfter)
    ensures var due := Due(stores[0], sink);
      var reached := Reach(limit, n, |due|);
      Joined(batches) == due[..reached] && Due(stores[n], sink) == due[reached..]
    decreases n
  {
    if n > 0 {
      LaterPolls(stores, batches, clocks, sink, limit, staleAfter);
      OnePoll(stores[0], stores[1], batches[0], clocks, sink, limit, staleAfter);
      QuietLater(stores[1], sink, clocks, staleAfter);
      PollsReach(stores[1..], batches[1..], clocks[1..], sink, limit, staleAfter, n - 1);
      assert stores[1..][n - 1] == stores[n];
      DrainOnce(Due(stores[0], sink), limit, n, batches[0], Due(stores[1], sink), Joined(batches[1..]),
        Due(stores[n], sink));
    }
  }

  lemma QuietLater(s: Store, sink: Sink, clocks: seq<Clock>, staleAfter: nat)
    requires clocks != [] && QuietAt(s, sink, clocks, staleAfter)
    ensures QuietAt(s, sink, clocks[1..], staleAfter)
  {
    forall i | 0 <= i < |clocks[1..]| ensures NothingStale(s, sink, clocks[1..][i].recoveredAt, staleAfter) {
      assert NothingStale(s, sink, clocks[i + 1].recoveredAt, staleAfter);
    }
  }

  lemma DrainOnce(due: seq<Id>, limit: nat, polls: nat, first: seq<Id>, due1: seq<Id>, rest: seq<Id>, last: seq<Id>)
    requires limit >= 1 && polls >= 1
    requires first == due[..BatchSize(limit, |due|)] && due1 == due[BatchSize(limit, |due|)..]
    requires rest == due1[..Reach(limit, polls - 1, |due1|)] && last == due1[Reach(limit, polls - 1, |due1|)..]
    ensures first + rest == due[..Reach(limit, polls, |due|)] && last == due[Reach(limit, polls, |due|)..]
  {
    var k, more := BatchSize(limit, |due|), Reach(limit, polls - 1, |due1|);
    assert due[..k] + due[k..][..more] == due[..k + more] && due[k..][more..] == due[k + more..];
  }

  lemma NothingLeft(due: seq<Id>, reached: nat)
    requires reached <= |due|
    ensures due[reached..] == [] <==> reached == |due|
  {
  }

  /** While the polls go on, no outstanding claim of the sink turns stale: each is stale all along or not at all. */
  ghost predicate IsSteady(s: Store, sink: Sink, clocks: seq<Clock>, staleAfter: nat)
    requires clocks != []
  {
    forall i, id | 0 <= i < |clocks| ::
      IsStaleFor(s, id, sink, clocks[i].recoveredAt, staleAfter) <==>
      IsStaleFor(s, id, sink, clocks[0].recoveredAt, staleAfter)
  }

  /** What is due at a poll: the pending notifications and those whose claims have gone stale. */
  function DueAt(s: Store, sink: Sink, at: int, staleAfter: nat): seq<Id> {
    Due(Recover(s, at, staleAfter), sink)
  }

  lemma RecoveryMakesPending(s: Store, sink: Sink, at: int, staleAfter: nat, id: Id)
    ensures StatusOf(Recover(s, at, staleAfter), id, sink) == Some(Pending) <==>
            StatusOf(s, id, sink) == Some(Pending) || IsStaleFor(s, id, sink, at, staleAfter)
  {
    RecoverSinkOf(s, at, staleAfter, id, sink);
  }

  lemma PendingAfterRecovery(s: Store, sink: Sink, at: int, staleAfter: nat)
    ensures PendingSet(Recover(s, at, staleAfter), sink) == PendingSet(s, sink) + StaleSet(s, sink, at, staleAfter)
  {
    forall id
      ensures id in PendingSet(Recover(s, at, staleAfter), sink) <==>
              id in PendingSet(s, sink) || id in StaleSet(s, sink, at, staleAfter)
    {
      RecoveryMakesPending(s, sink, at, staleAfter, id);
    }
  }

  lemma StaleIsNotPending(s: Store, sink: Sink, at: int, staleAfter: nat)
    ensures PendingSet(s, sink) !! StaleSet(s, sink, at, staleAfter)
  {
  }

  lemma CountOfBoth(a: set<Id>, b: set<Id>)
    requires a !! b
    ensures |a + b| == |a| + |b|
  {
  }

  /** Due at a poll are the pending notifications and the stale claims, and no others. */
  lemma DueCountsStaleClaims(s: Store, sink: Sink, at: int, staleAfter: nat)
    requires Valid(s)
    ensures |DueAt(s, sink, at, staleAfter)| == |PendingSet(s, sink)| + |StaleSet(s, sink, at, staleAfter)|
    ensures forall id :: id in DueAt(s, sink, at, staleAfter) <==>
                         StatusOf(s, id, sink) == Some(Pending) || IsStaleFor(s, id, sink, at, staleAfter)
  {
    var recovered := Recover(s, at, staleAfter);
    RecoverIsValid(s, at, staleAfter);
    DueProperties(recovered, sink);
    PendingAfterRecovery(s, sink, at, staleAfter);
    StaleIsNotPending(s, sink, at, staleAfter);
    CountOfBoth(PendingSet(s, sink), StaleSet(s, sink, at, staleAfter));
    forall id
      ensures id in DueAt(s, sink, at, staleAfter) <==>
              StatusOf(s, id, sink) == Some(Pending) || IsStaleFor(s, id, sink, at, staleAfter)
    {
      RecoveryMakesPending(s, sink, at, staleAfter, id);
    }
  }

  /** Recovering first changes nothing about a poll at the same time, and leaves nothing that turns stale. */
  lemma RecoveredFirst(stores: seq<Store>, batches: seq<seq<Id>>, clocks: seq<Clock>, sink: Sink, limit: int,
                       staleAfter: nat)
    requires batches != [] && ArePolls(stores, batches, clocks, sink, limit, staleAfter)
    requires Valid(stores[0]) && IsSteady(stores[0], sink, clocks, staleAfter)
    ensures var first := Recover(stores[0], clocks[0].recoveredAt, staleAfter);
      && Valid(first) && QuietAt(first, sink, clocks, staleAfter)
      && ArePolls([first] + stores[1..], batches, clocks, sink, limit, staleAfter)
  {
    var s, at := stores[0], clocks[0].recoveredAt;
    var first := Recover(s, at, staleAfter);
    RecoverIsValid(s, at, staleAfter);
    RecoverTwice(s, at, staleAfter);
    forall i | 0 <= i < |clocks| ensures NothingStale(first, sink, clocks[i].recoveredAt, staleAfter) {
      forall id ensures !IsStaleFor(first, id, sink, clocks[i].recoveredAt, staleAfter) {
        RecoverSinkOf(s, at, staleAfter, id, sink);
        assert IsStaleFor(s, id, sink, clocks[i].recoveredAt, staleAfter) <==> IsStaleFor(s, id, sink, at, staleAfter);
      }
    }
    var recovered := [first] + stores[1..];
    forall i, j | 0 <= i < |batches| && j == i + 1
      ensures IsPoll(recovered[i], recovered[j], batches[i], clocks[i], sink, limit, staleAfter)
    {
      assert IsPoll(stores[i], stores[j], batches[i], clocks[i], sink, limit, staleAfter);
      assert recovered[j] == stores[j];
    }
  }

  lemma RecoverTwice(s: Store, at: int, staleAfter: nat)
    ensures Recover(Recover(s, at, staleAfter), at, staleAfter) == Recover(s, at, staleAfter)
  {
    var once := Recover(s, at, staleAfter);
    forall id | id in s.notes ensures RecoverNote(once.notes[id], at, staleAfter) == once.notes[id] {
      assert RecoverNote(once.notes[id], at, staleAfter).sinks == once.notes[id].sinks;
    }
    assert Recover(once, at, staleAfter).notes == once.notes;
  }

  /**
   Polling hands out what is due at its first poll, stale claims included, oldest first and each once, a limit's worth
   at a time, as long as no other outstanding claim turns stale meanwhile.
   */
  lemma PollingDrains(stores: seq<Store>, batches: seq<seq<Id>>, clocks: seq<Clock>, sink: Sink, limit: nat,
                      staleAfter: nat)
    requires limit >= 1 && batches != [] && ArePolls(stores, batches, clocks, sink, limit, staleAfter)
    requires Valid(stores[0]) && IsSteady(stores[0], sink, clocks, staleAfter)
    ensures var due := DueAt(stores[0], sink, clocks[0].recoveredAt, staleAfter);
      var reached := Reach(limit, |batches|, |due|);
      Joined(batches) == due[..reached] && Due(stores[|batches|], sink) == due[reached..]
  {
    RecoveredFirst(stores, batches, clocks, sink, limit, staleAfter);
    var recovered := [Recover(stores[0], clocks[0].recoveredAt, staleAfter)] + stores[1..];
    PollsReach(recovered, batches, clocks, sink, limit, staleAfter, |batches|);
    assert recovered[|batches|] == stores[|batches|];
  }

  /** The queue is empty after exactly the polls that everything due at the first one needs, and not earlier. */
  lemma DrainedIff(stores: seq<Store>, batches: seq<seq<Id>>, clocks: seq<Clock>, sink: Sink, limit: nat,
                   staleAfter: nat)
    requires limit >= 1 && batches != [] && ArePolls(stores, batches, clocks, sink, limit, staleAfter)
    requires Valid(stores[0]) && IsSteady(stores[0], sink, clocks, staleAfter)
    ensures Due(stores[|batches|], sink) == [] <==>
            PollsSuffice(|DueAt(stores[0], sink, clocks[0].recoveredAt, staleAfter)|, limit, |batches|)
  {
    var due := DueAt(stores[0], sink, clocks[0].recoveredAt, staleAfter);
    PollingDrains(stores, batches, clocks, sink, limit, staleAfter);
    NothingLeft(due, Reach(limit, |batches|, |due|));
    ReachesAllIff(limit, |batches|, |due|);
  }

  /**
   With n pending notifications and m claims that are stale already, the queue is empty after exactly the polls that
   n + m need, and not earlier.
   */
  lemma DrainedAfterEnoughPolls(stores: seq<Store>, batches: seq<seq<Id>>, clocks: seq<Clock>, sink: Sink, limit: nat,
                                staleAfter: nat)
    requires limit >= 1 && batches != [] && ArePolls(stores, batches, clocks, sink, limit, staleAfter)
    requires Valid(stores[0]) && IsSteady(stores[0], sink, clocks, staleAfter)
    ensures var n, m := |PendingSet(stores[0], sink)|, |StaleSet(stores[0], sink, clocks[0].recoveredAt, staleAfter)|;
      Due(stores[|batches|], sink) == [] <==> PollsSuffice(n + m, limit, |batches|)
  {
    DrainedIff(stores, batches, clocks, sink, limit, staleAfter);
    DueCountsStaleClaims(stores[0], sink, clocks[0].recoveredAt, staleAfter);
  }

  predicate PollsSuffice(n: nat, limit: nat, polls: nat)
    requires limit >= 1
  {
    polls >= (n + limit - 1) / limit
  }

  lemma ReachesAllIff(limit: nat, polls: nat, due: nat)
    requires limit >= 1
    ensures Reach(limit, polls, due) == due <==> PollsSuffice(due, limit, polls)
  {
    ReachIsTheProduct(limit, polls, due);
    RoundUp(due, limit, polls);
  }

  lemma RoundUp(n: nat, limit: nat, k: nat)
    requires limit >= 1
    ensures k * limit >= n <==> k >= (n + limit - 1) / limit
  {
    var q := (n + limit - 1) / limit;
    assert n <= q * limit < n + limit;
    if k >= q {
      TimesGrows(q, k, limit);
    } else {
      TimesGrows(k + 1, q, limit);
      assert (k + 1) * limit == k * limit + limit;
    }
  }

  // ---- Each once, whatever turns stale ----

  lemma AckedIsNotHandedOut(s: Store, batch: seq<Id>, clock: Clock, sink: Sink, limit: int, staleAfter: nat, id: Id)
    requires Valid(s) && StatusOf(s, id, sink) == Some(Acked)
    requires forall id | id in batch :: id in Claims(Recover(s, clock.recoveredAt, staleAfter), sink, limit)
    ensures StatusOf(Recover(s, clock.recoveredAt, staleAfter), id, sink) == Some(Acked) && id !in batch
  {
    RecoverIsValid(s, clock.recoveredAt, staleAfter);
    ClaimsArePending(Recover(s, clock.recoveredAt, staleAfter), sink, limit);
    RecoverSinkOf(s, clock.recoveredAt, staleAfter, id, sink);
  }

  /** What a poll hands out was due at it, once each, and is acknowledged afterwards. */
  lemma BatchIsAcked(s: Store, s': Store, batch: seq<Id>, clock: Clock, sink: Sink, limit: int, staleAfter: nat)
    requires Valid(s) && IsPoll(s, s', batch, clock, sink, limit, staleAfter)
    ensures Valid(s')
    ensures forall id | id in batch :: StatusOf(s', id, sink) == Some(Acked)
    ensures forall id | StatusOf(s, id, sink) == Some(Acked) ::
              StatusOf(s', id, sink) == Some(Acked) && id !in batch
  {
    DeliverAcksTheHandled(s, sink, limit, {}, clock, staleAfter);
    forall id | StatusOf(s, id, sink) == Some(Acked)
      ensures StatusOf(s', id, sink) == Some(Acked) && id !in batch
    {
      AckedIsNotHandedOut(s, batch, clock, sink, limit, staleAfter, id);
    }
  }

  lemma BatchIsDistinct(s: Store, s': Store, batch: seq<Id>, clock: Clock, sink: Sink, limit: int, staleAfter: nat)
    requires Valid(s) && IsPoll(s, s', batch, clock, sink, limit, staleAfter)
    ensures Distinct(batch)
  {
    var recovered := Recover(s, clock.recoveredAt, staleAfter);
    RecoverIsValid(s, clock.recoveredAt, staleAfter);
    ClaimsArePending(recovered, sink, limit);
    SelectIsDistinct(Claims(recovered, sink, limit), Elements(Claims(recovered, sink, limit)) - {});
  }

  /** No notification is handed out twice by polls whose handlers succeed, whatever claims turn stale in between. */
  lemma {:induction false} PollsHandOutOnce(stores: seq<Store>, batches: seq<seq<Id>>, clocks: seq<Clock>, sink: Sink,
                                            limit: int, staleAfter: nat)
    requires ArePolls(stores, batches, clocks, sink, limit, staleAfter) && Valid(stores[0])
    ensures Distinct(Joined(batches))
    ensures forall id | StatusOf(stores[0], id, sink) == Some(Acked) :: id !in Joined(batches)
    decreases |batches|
  {
    if batches != [] {
      LaterPolls(stores, batches, clocks, sink, limit, staleAfter);
      BatchIsAcked(stores[0], stores[1], batches[0], clocks[0], sink, limit, staleAfter);
      BatchIsDistinct(stores[0], stores[1], batches[0], clocks[0], sink, limit, staleAfter);
      PollsHandOutOnce(stores[1..], batches[1..], clocks[1..], sink, limit, staleAfter);
      DistinctJoin(batches[0], Joined(batches[1..]));
    }
  }

  lemma DistinctJoin(a: seq<Id>, b: seq<Id>)
    requires Distinct(a) && Distinct(b) && forall id | id in a :: id !in b
    ensures Distinct(a + b)
  {
    forall i, j | 0 <= i < j < |a + b| ensures (a + b)[i] != (a + b)[j] {
      if i < |a| <= j {
        assert (a + b)[i] in a && (a + b)[j] in b;
      }
    }
  }

  // ---- Interleaved runs ----

  datatype Handout = Handout(id: Id, sink: Sink, at: int)

  datatype State = State(store: Store, log: seq<Handout>, now: int)

  /** A claim reads the clock again after its recovery, at `at`. */
  datatype Event =
    | DoPublish(notice: Notice, position: nat)
    | DoRecover
    | DoClaim(sink: Sink, limit: int, at: int)
    | DoAck(sink: Sink, id: Id)
    | DoTick(later: nat)

  function Opened(now: int): State {
    State(Store([], map[]), [], now)
  }

  predicate Enabled(s: State, e: Event) {
    match e
    case DoPublish(n, position) => position <= |s.store.order| && n.id !in s.store.notes
    case DoClaim(_, _, at) => at >= s.now
    case _ => true
  }

  function Handouts(ids: seq<Id>, sink: Sink, at: int): (r: seq<Handout>)
    ensures |r| == |ids| && forall i | 0 <= i < |ids| :: r[i] == Handout(ids[i], sink, at)
  {
    seq(|ids|, i requires 0 <= i < |ids| => Handout(ids[i], sink, at))
  }

  function AfterClaim(s: State, recovered: Store, sink: Sink, limit: int, at: int): State {
    State(ClaimAll(recovered, Claims(recovered, sink, limit), sink, at),
          s.log + Handouts(Claims(recovered, sink, limit), sink, at), at)
  }

  function Next(s: State, e: Event, staleAfter: nat): State
    requires Enabled(s, e)
  {
    match e
    case DoPublish(n, position) => s.(store := Publish(s.store, n, position).0)
    case DoRecover => s.(store := Recover(s.store, s.now, staleAfter))
    case DoClaim(sink, limit, at) => AfterClaim(s, Recover(s.store, s.now, staleAfter), sink, limit, at)
    case DoAck(sink, id) => s.(store := Ack(s.store, sink, id, s.now))
    case DoTick(later) => s.(now := s.now + later)
  }

  /** Every event does what it is for: stores the notice, hands out, acknowledges, lets time pass. */
  lemma EventsTakeEffect(s: State, id: Id, sink: Sink, later: nat, staleAfter: nat)
    requires HasSink(s.store, id, sink)
    ensures StatusOf(Next(s, DoAck(sink, id), staleAfter).store, id, sink) == Some(Acked)
    ensures Next(s, DoTick(later), staleAfter) == State(s.store, s.log, s.now + later)
    ensures StatusOf(Next(s, DoRecover, staleAfter).store, id, sink) ==
            if StatusOf(s.store, id, sink) == Some(Claimed) && IsStaleFor(s.store, id, sink, s.now, staleAfter)
            then Some(Pending) else StatusOf(s.store, id, sink)
  {
  }

  lemma PublishedIsStored(s: State, n: Notice, position: nat, staleAfter: nat)
    requires Valid(s.store) && KeysAreUnique(s.store) && Enabled(s, DoPublish(n, position))
    ensures var s' := Next(s, DoPublish(n, position), staleAfter);
      n.id in s'.store.notes || (HasKey(n) && exists id :: IsKeyOf(s'.store, id, n.dedupeKey.value))
  {
    PublishOncePerKey(s.store, n, position);
  }

  lemma AfterClaimHandsOut(s: State, recovered: Store, sink: Sink, limit: int, at: int)
    requires Valid(recovered)
    ensures var s', due := AfterClaim(s, recovered, sink, limit, at), Due(recovered, sink);
      && s'.now == at && s.log <= s'.log
      && |s'.log| - |s.log| == (if |due| == 0 then 0 else if limit <= 1 then 1 else if limit < |due| then limit else |due|)
      && forall i | |s.log| <= i < |s'.log| :: s'.log[i] == Handout(due[i - |s.log|], sink, at)
  {
    var handed := Handouts(Claims(recovered, sink, limit), sink, at);
    assert AfterClaim(s, recovered, sink, limit, at).log == s.log + handed;
  }

  lemma HandedOutIsClaimed(s: State, recovered: Store, sink: Sink, limit: int, at: int, i: nat)
    requires Valid(recovered) && |s.log| <= i < |AfterClaim(s, recovered, sink, limit, at).log|
    ensures var s' := AfterClaim(s, recovered, sink, limit, at);
      StatusOf(s'.store, s'.log[i].id, sink) == Some(Claimed)
  {
    var ids := Claims(recovered, sink, limit);
    ClaimsArePending(recovered, sink, limit);
    ClaimAllIsValid(recovered, ids, sink, at);
    assert ids[i - |s.log|] in ids;
  }

  /** A claim logs a hand-out at its time for each notification it claims, and each is claimed afterwards. */
  lemma ClaimHandsOut(s: State, sink: Sink, limit: int, at: int, staleAfter: nat)
    requires Valid(s.store) && Enabled(s, DoClaim(sink, limit, at))
    ensures var s', due := Next(s, DoClaim(sink, limit, at), staleAfter), DueAt(s.store, sink, s.now, staleAfter);
      && s'.now == at && s.log <= s'.log
      && |s'.log| - |s.log| == (if |due| == 0 then 0 else if limit <= 1 then 1 else if limit < |due| then limit else |due|)
      && forall i | |s.log| <= i < |s'.log| ::
           s'.log[i] == Handout(due[i - |s.log|], sink, at) && StatusOf(s'.store, s'.log[i].id, sink) == Some(Claimed)
  {
    var recovered := Recover(s.store, s.now, staleAfter);
    RecoverIsValid(s.store, s.now, staleAfter);
    AfterClaimHandsOut(s, recovered, sink, limit, at);
    forall i | |s.log| <= i < |AfterClaim(s, recovered, sink, limit, at).log|
      ensures StatusOf(AfterClaim(s, recovered, sink, limit, at).store, AfterClaim(s, recovered, sink, limit, at).log[i].id,
                       sink) == Some(Claimed)
    {
      HandedOutIsClaimed(s, recovered, sink, limit, at, i);
    }
  }

  predicate Runs(s: State, events: seq<Event>, staleAfter: nat)
    decreases |events|
  {
    events == [] || (Enabled(s, events[0]) && Runs(Next(s, events[0], staleAfter), events[1..], staleAfter))
  }

  function Run(s: State, events: seq<Event>, staleAfter: nat): State
    requires Runs(s, events, staleAfter)
    decreases |events|
  {
    if events == [] then s else Run(Next(s, events[0], staleAfter), events[1..], staleAfter)
  }

  predicate IsOf(h: Handout, id: Id, sink: Sink) {
    h.id == id && h.sink == sink
  }

  /** When a notification was handed to a sink, in order. */
  function Times(log: seq<Handout>, id: Id, sink: Sink): seq<int> {
    if log == [] then []
    else
      var before, last := Times(log[..|log| - 1], id, sink), log[|log| - 1];
      if IsOf(last, id, sink) then before + [last.at] else before
  }

  ghost predicate AreSpaced(times: seq<int>, gap: nat) {
    forall i, j | 0 <= i < j < |times| :: times[j] - times[i] > gap
  }

  /** A pair that is pending was handed out long ago, if ever; one that is claimed was handed out last when claimed. */
  ghost predicate PairFits(st: Option<SinkState>, times: seq<int>, now: int, staleAfter: nat) {
    && AreSpaced(times, staleAfter)
    && (st.None? ==> times == [])
    && (st.Some? && st.value.status == Pending && times != [] ==> now - times[|times| - 1] > staleAfter)
    && (st.Some? && st.value.status == Claimed ==>
          st.value.claimedAt.Some? && times != [] && times[|times| - 1] == st.value.claimedAt.value <= now)
  }

  ghost predicate PairInv(s: State, id: Id, sink: Sink, staleAfter: nat) {
    PairFits(SinkOf(s.store, id, sink), Times(s.log, id, sink), s.now, staleAfter)
  }

  ghost predicate Inv(s: State, staleAfter: nat) {
    && Valid(s.store) && KeysAreUnique(s.store)
    && (forall id, sink :: PairInv(s, id, sink, staleAfter))
  }

  lemma HandoutsAppend(log: seq<Handout>, front: seq<Id>, last: Id, taker: Sink, at: int)
    ensures log + Handouts(front + [last], taker, at) == log + Handouts(front, taker, at) + [Handout(last, taker, at)]
  {
  }

  lemma {:induction false} TimesOfHandouts(log: seq<Handout>, ids: seq<Id>, taker: Sink, at: int, id: Id, sink: Sink)
    requires Distinct(ids)
    ensures Times(log + Handouts(ids, taker, at), id, sink) ==
            Times(log, id, sink) + if taker == sink && id in ids then [at] else []
    decreases |ids|
  {
    if ids == [] {
      assert log + Handouts(ids, taker, at) == log;
    } else {
      var front, last := ids[..|ids| - 1], ids[|ids| - 1];
      assert ids == front + [last];
      assert last !in front && (id in ids <==> id in front || id == last);
      TimesOfHandouts(log, front, taker, at, id, sink);
      HandoutsAppend(log, front, last, taker, at);
      TimesAppend(log + Handouts(front, taker, at), Handout(last, taker, at), id, sink);
      TimesJoin(Times(log, id, sink), taker == sink && id in front, taker == sink && id == last, at);
    }
  }

  lemma TimesJoin(times: seq<int>, inFront: bool, isLast: bool, at: int)
    requires !(inFront && isLast)
    ensures (times + if inFront then [at] else []) + (if isLast then [at] else []) ==
            times + if inFront || isLast then [at] else []
  {
  }

  lemma TimesAppend(log: seq<Handout>, h: Handout, id: Id, sink: Sink)
    ensures Times(log + [h], id, sink) == Times(log, id, sink) + if IsOf(h, id, sink) then [h.at] else []
  {
    assert (log + [h])[..|log|] == log;
  }

  lemma ClaimSinkOf(s: Store, ids: seq<Id>, taker: Sink, now: int, id: Id, sink: Sink)
    ensures var st := SinkOf(s, id, sink);
      SinkOf(ClaimAll(s, ids, taker, now), id, sink) ==
      if st.Some? && taker == sink && id in ids then Some(st.value.(status := Claimed, claimedAt := Some(now))) else st
  {
  }

  lemma RecoverFits(st: SinkState, times: seq<int>, now: int, staleAfter: nat)
    requires PairFits(Some(st), times, now, staleAfter)
    ensures PairFits(Some(RecoverSink(st, now, staleAfter)), times, now, staleAfter)
  {
  }

  lemma ClaimFits(st: SinkState, times: seq<int>, now: int, at: int, staleAfter: nat)
    requires PairFits(Some(st), times, now, staleAfter) && st.status == Pending && now <= at
    ensures PairFits(Some(st.(status := Claimed, claimedAt := Some(at))), times + [at], at, staleAfter)
  {
    forall i, j | 0 <= i < j < |times + [at]| ensures (times + [at])[j] - (times + [at])[i] > staleAfter {
      if j == |times| && i < |times| - 1 {
        assert times[|times| - 1] - times[i] > staleAfter;
      }
    }
  }

  lemma ClaimsFit(s: Store, times: seq<int>, now: int, limit: int, taker: Sink, at: int, id: Id, sink: Sink, staleAfter: nat)
    requires Valid(s) && now <= at
    requires PairFits(SinkOf(s, id, sink), times, now, staleAfter)
    ensures var ids := Claims(s, taker, limit);
      && Distinct(ids)
      && PairFits(SinkOf(ClaimAll(s, ids, taker, at), id, sink),
                  times + (if taker == sink && id in ids then [at] else []), at, staleAfter)
  {
    var ids := Claims(s, taker, limit);
    ClaimsArePending(s, taker, limit);
    ClaimSinkOf(s, ids, taker, at, id, sink);
    if taker == sink && id in ids {
      assert StatusOf(s, id, sink) == Some(Pending);
      ClaimFits(SinkOf(s, id, sink).value, times, now, at, staleAfter);
    } else {
      assert times + [] == times;
    }
  }

  lemma AfterClaimKeepsPair(s: State, recovered: Store, taker: Sink, limit: int, at: int, id: Id, sink: Sink, staleAfter: nat)
    requires Valid(recovered) && s.now <= at
    requires PairFits(SinkOf(recovered, id, sink), Times(s.log, id, sink), s.now, staleAfter)
    ensures PairInv(AfterClaim(s, recovered, taker, limit, at), id, sink, staleAfter)
  {
    ClaimsFit(recovered, Times(s.log, id, sink), s.now, limit, taker, at, id, sink, staleAfter);
    TimesOfHandouts(s.log, Claims(recovered, taker, limit), taker, at, id, sink);
  }

  lemma ClaimKeepsPair(s: State, taker: Sink, limit: int, at: int, id: Id, sink: Sink, staleAfter: nat)
    requires Valid(s.store) && PairInv(s, id, sink, staleAfter) && s.now <= at
    ensures PairInv(AfterClaim(s, Recover(s.store, s.now, staleAfter), taker, limit, at), id, sink, staleAfter)
  {
    var recovered, times := Recover(s.store, s.now, staleAfter), Times(s.log, id, sink);
    RecoverIsValid(s.store, s.now, staleAfter);
    RecoverSinkOf(s.store, s.now, staleAfter, id, sink);
    if SinkOf(s.store, id, sink).Some? {
      RecoverFits(SinkOf(s.store, id, sink).value, times, s.now, staleAfter);
    }
    AfterClaimKeepsPair(s, recovered, taker, limit, at, id, sink, staleAfter);
  }

  lemma StepKeepsPair(s: State, e: Event, id: Id, sink: Sink, staleAfter: nat)
    requires Valid(s.store) && PairInv(s, id, sink, staleAfter) && Enabled(s, e)
    ensures PairInv(Next(s, e, staleAfter), id, sink, staleAfter)
  {
    match e {
      case DoPublish(n, position) =>
      case DoRecover =>
        RecoverSinkOf(s.store, s.now, staleAfter, id, sink);
        if SinkOf(s.store, id, sink).Some? {
          RecoverFits(SinkOf(s.store, id, sink).value, Times(s.log, id, sink), s.now, staleAfter);
        }
      case DoClaim(taker, limit, at) => ClaimKeepsPair(s, taker, limit, at, id, sink, staleAfter);
      case DoAck(_, _) =>
      case DoTick(later) =>
    }
  }

  lemma StepKeepsStore(s: State, e: Event, staleAfter: nat)
    requires Valid(s.store) && KeysAreUnique(s.store) && Enabled(s, e)
    ensures Valid(Next(s, e, staleAfter).store) && KeysAreUnique(Next(s, e, staleAfter).store)
  {
    match e {
      case DoPublish(n, position) => PublishOncePerKey(s.store, n, position);
      case DoRecover => RecoverIsValid(s.store, s.now, staleAfter);
      case DoClaim(taker, limit, at) =>
        RecoverIsValid(s.store, s.now, staleAfter);
        var recovered := Recover(s.store, s.now, staleAfter);
        ClaimAllIsValid(recovered, Claims(recovered, taker, limit), taker, at);
      case DoAck(_, _) =>
      case DoTick(_) =>
    }
  }

  lemma {:induction false} RunKeepsInv(s: State, events: seq<Event>, staleAfter: nat)
    requires Inv(s, staleAfter) && Runs(s, events, staleAfter)
    ensures Inv(Run(s, events, staleAfter), staleAfter)
    decreases |events|
  {
    if events != [] {
      StepKeepsStore(s, events[0], staleAfter);
      forall id, sink ensures PairInv(Next(s, events[0], staleAfter), id, sink, staleAfter) {
        StepKeepsPair(s, events[0], id, sink, staleAfter);
      }
      RunKeepsInv(Next(s, events[0], staleAfter), events[1..], staleAfter);
    }
  }

  /** Hand-outs of one pair appear among its times in their order. */
  lemma {:induction false} HandoutsHaveTimes(log: seq<Handout>, i: nat, j: nat, id: Id, sink: Sink)
    requires i < j < |log| && IsOf(log[i], id, sink) && IsOf(log[j], id, sink)
    ensures exists a, b | 0 <= a < b < |Times(log, id, sink)| ::
              Times(log, id, sink)[a] == log[i].at && Times(log, id, sink)[b] == log[j].at
    decreases |log|
  {
    var front, times := log[..|log| - 1], Times(log, id, sink);
    var before := Times(front, id, sink);
    assert before <= times;
    if j < |log| - 1 {
      HandoutsHaveTimes(front, i, j, id, sink);
      var a, b :| 0 <= a < b < |before| && before[a] == front[i].at && before[b] == front[j].at;
      assert times[a] == log[i].at && times[b] == log[j].at;
    } else {
      HandoutHasTime(front, i, id, sink);
      var a :| 0 <= a < |before| && before[a] == front[i].at;
      assert times[a] == log[i].at && times[|before|] == log[j].at;
    }
  }

  lemma {:induction false} HandoutHasTime(log: seq<Handout>, i: nat, id: Id, sink: Sink)
    requires i < |log| && IsOf(log[i], id, sink)
    ensures exists a | 0 <= a < |Times(log, id, sink)| :: Times(log, id, sink)[a] == log[i].at
    decreases |log|
  {
    var front, times := log[..|log| - 1], Times(log, id, sink);
    var before := Times(front, id, sink);
    assert before <= times;
    if i < |log| - 1 {
      HandoutHasTime(front, i, id, sink);
      var a :| 0 <= a < |before| && before[a] == front[i].at;
      assert times[a] == log[i].at;
    } else {
      assert times[|before|] == log[i].at;
    }
  }

  /** In every run, a notification handed to a sink twice was claimed for longer than the limit in between. */
  lemma SecondHandoutIsLate(now: int, events: seq<Event>, staleAfter: nat, i: nat, j: nat)
    requires Runs(Opened(now), events, staleAfter)
    requires i < j < |Run(Opened(now), events, staleAfter).log|
    ensures var log := Run(Opened(now), events, staleAfter).log;
      log[i].id == log[j].id && log[i].sink == log[j].sink ==> log[j].at - log[i].at > staleAfter
  {
    RunKeepsInv(Opened(now), events, staleAfter);
    var s := Run(Opened(now), events, staleAfter);
    var Handout(id, sink, _) := s.log[i];
    assert PairInv(s, id, sink, staleAfter);
    if IsOf(s.log[j], id, sink) {
      HandoutsHaveTimes(s.log, i, j, id, sink);
    }
  }

  lemma StepKeepsAcked(s: State, e: Event, id: Id, sink: Sink, staleAfter: nat)
    requires Valid(s.store) && Enabled(s, e) && StatusOf(s.store, id, sink) == Some(Acked)
    ensures var s' := Next(s, e, staleAfter);
      StatusOf(s'.store, id, sink) == Some(Acked) && Times(s'.log, id, sink) == Times(s.log, id, sink)
  {
    if e.DoClaim? {
      RecoverIsValid(s.store, s.now, staleAfter);
      RecoverSinkOf(s.store, s.now, staleAfter, id, sink);
      ClaimPassesAcked(s, Recover(s.store, s.now, staleAfter), e.sink, e.limit, e.at, id, sink);
    }
  }

  lemma ClaimPassesAcked(s: State, recovered: Store, taker: Sink, limit: int, at: int, id: Id, sink: Sink)
    requires Valid(recovered) && StatusOf(recovered, id, sink) == Some(Acked)
    ensures var s' := AfterClaim(s, recovered, taker, limit, at);
      StatusOf(s'.store, id, sink) == Some(Acked) && Times(s'.log, id, sink) == Times(s.log, id, sink)
  {
    var ids := Claims(recovered, taker, limit);
    ClaimsArePending(recovered, taker, limit);
    ClaimSinkOf(recovered, ids, taker, at, id, sink);
    TimesOfHandouts(s.log, ids, taker, at, id, sink);
  }

  /** Once acknowledged, a notification stays acknowledged for its sink and is never handed to it again. */
  lemma {:induction false} AckedIsForGood(s: State, events: seq<Event>, id: Id, sink: Sink, staleAfter: nat)
    requires Valid(s.store) && KeysAreUnique(s.store) && Runs(s, events, staleAfter)
    requires StatusOf(s.store, id, sink) == Some(Acked)
    ensures var s' := Run(s, events, staleAfter);
      StatusOf(s'.store, id, sink) == Some(Acked) && Times(s'.log, id, sink) == Times(s.log, id, sink)
    decreases |events|
  {
    if events != [] {
      StepKeepsStore(s, events[0], staleAfter);
      StepKeepsAcked(s, events[0], id, sink, staleAfter);
      AckedIsForGood(Next(s, events[0], staleAfter), events[1..], id, sink, staleAfter);
    }
  }
}
