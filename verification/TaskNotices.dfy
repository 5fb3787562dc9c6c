/** Announcing finished background tasks: one notification per task and terminal reason, a limited number per call. */
module TaskNotices {
  import opened Wrappers
  import opened Listings
  import opened Notifications
  import BackgroundTasks
  import Deliveries

  type TaskId = BackgroundTasks.TaskId

  type Tasks = map<TaskId, BackgroundTasks.Task>

  function StatusName(status: BackgroundTasks.Status): string {
    match status
    case Created => "created"
    case Starting => "starting"
    case Running => "running"
    case AwaitingApproval => "awaiting_approval"
    case Completed => "completed"
    case Failed => "failed"
    case Killed => "killed"
    case Lost => "lost"
  }

  function TerminalReason(r: BackgroundTasks.Runtime): string {
    if r.timedOut then "timed_out" else StatusName(r.status)
  }

  const KEY_PREFIX: string := "background_task:"

  function DedupeKey(id: TaskId, reason: string): string {
    KEY_PREFIX + id + ":" + reason
  }

  function KeyOfTask(tasks: Tasks, id: TaskId): string {
    if id in tasks then DedupeKey(id, TerminalReason(tasks[id].runtime)) else ""
  }

  /** The most recently updated first, as the task store lists them. */
  function ListTasks(order: seq<TaskId>, tasks: Tasks): seq<TaskId> {
    SortDescending(order, map id | id in tasks ::
      BackgroundTasks.Or(Some(tasks[id].runtime.updatedAt), tasks[id].spec.createdAt))
  }

  // ---- Keys tell tasks and reasons apart ----

  lemma LongerHoldsTheColon(a: string, x: string, b: string, y: string)
    requires a + ":" + x == b + ":" + y && |a| < |b|
    ensures ':' in b
  {
    assert (a + ":" + x)[|a|] == (b + ":" + y)[|a|];
    assert b[|a|] == ':';
  }

  lemma FirstColon(a: string, x: string, b: string, y: string)
    requires a + ":" + x == b + ":" + y
    ensures ':' !in a && ':' !in b ==> a == b && x == y
  {
    if |a| < |b| {
      LongerHoldsTheColon(a, x, b, y);
    } else if |b| < |a| {
      LongerHoldsTheColon(b, y, a, x);
    } else {
      assert a == (a + ":" + x)[..|a|] && b == (b + ":" + y)[..|a|];
      assert x == (a + ":" + x)[|a| + 1..] && y == (b + ":" + y)[|a| + 1..];
    }
  }

  /** Task ids hold no colon, so a key names one task and one reason. */
  lemma KeysNameTaskAndReason(a: TaskId, b: TaskId, x: string, y: string)
    requires ':' !in a && ':' !in b
    ensures DedupeKey(a, x) == DedupeKey(b, y) <==> a == b && x == y
  {
    if DedupeKey(a, x) == DedupeKey(b, y) {
      assert DedupeKey(a, x) == KEY_PREFIX + (a + ":" + x) && DedupeKey(b, y) == KEY_PREFIX + (b + ":" + y);
      assert a + ":" + x == DedupeKey(a, x)[|KEY_PREFIX|..] == DedupeKey(b, y)[|KEY_PREFIX|..] == b + ":" + y;
      FirstColon(a, x, b, y);
    }
  }

  ghost predicate AreTaskIds(ids: seq<TaskId>) {
    Distinct(ids) && forall id | id in ids :: ':' !in id
  }

  // ---- One call ----

  /** A fresh notification id and where its name falls in the directory. */
  datatype Draft = Draft(id: Id, slot: nat)

  function NoticeOf(tasks: Tasks, id: TaskId, draft: Draft, now: int): Notice {
    Notice(draft.id, now, Some(KeyOfTask(tasks, id)), {Llm, Wire, Shell})
  }

  function SlotIn(s: Store, draft: Draft): (at: nat)
    ensures at <= |s.order|
  {
    if draft.slot <= |s.order| then draft.slot else |s.order|
  }

  function Announce(s: Store, tasks: Tasks, id: TaskId, draft: Draft, now: int): (Store, Id) {
    Publish(s, NoticeOf(tasks, id, draft, now), SlotIn(s, draft))
  }

  /** The loop of `publish_terminal_notifications` over the listed tasks, with what it has published so far. */
  function PublishFrom(s: Store, tasks: Tasks, ids: seq<TaskId>, drafts: seq<Draft>, limit: Option<int>, now: int,
                       published: seq<Id>): (Store, seq<Id>)
    requires |drafts| == |ids|
    decreases |ids|
  {
    if ids == [] then (s, published)
    else if !BackgroundTasks.HasEnded(tasks, ids[0]) then PublishFrom(s, tasks, ids[1..], drafts[1..], limit, now, published)
    else
      var announced := Announce(s, tasks, ids[0], drafts[0], now);
      var published' := if announced.1 == drafts[0].id then published + [drafts[0].id] else published;
      if limit.Some? && |published'| >= limit.value then (announced.0, published')
      else PublishFrom(announced.0, tasks, ids[1..], drafts[1..], limit, now, published')
  }

  ghost predicate IsKnown(s: Store, key: string) {
    exists id :: IsKeyOf(s, id, key)
  }

  /** The finished tasks nobody was told about, in listing order. */
  ghost function Unpublished(s: Store, tasks: Tasks, ids: seq<TaskId>): seq<TaskId> {
    if ids == [] then []
    else if BackgroundTasks.HasEnded(tasks, ids[0]) && !IsKnown(s, KeyOfTask(tasks, ids[0])) then
      [ids[0]] + Unpublished(s, tasks, ids[1..])
    else Unpublished(s, tasks, ids[1..])
  }

  ghost predicate AreFresh(s: Store, drafts: seq<Draft>) {
    && (forall i, j | 0 <= i < j < |drafts| :: drafts[i].id != drafts[j].id)
    && (forall i | 0 <= i < |drafts| :: drafts[i].id !in s.notes)
  }

  /** Announcing adds exactly the task's key, and only if it was not known. */
  lemma AnnounceAddsItsKey(s: Store, tasks: Tasks, id: TaskId, draft: Draft, now: int)
    requires Valid(s) && KeysAreUnique(s) && draft.id !in s.notes && id in tasks
    ensures var (s', name) := Announce(s, tasks, id, draft, now);
      && Valid(s') && KeysAreUnique(s')
      && (name == draft.id <==> !IsKnown(s, KeyOfTask(tasks, id)))
      && (IsKnown(s, KeyOfTask(tasks, id)) ==> s' == s)
      && (forall key :: IsKnown(s', key) <==> IsKnown(s, key) || key == KeyOfTask(tasks, id))
      && s'.notes.Keys <= s.notes.Keys + {draft.id}
  {
    var n := NoticeOf(tasks, id, draft, now);
    PublishOncePerKey(s, n, SlotIn(s, draft));
    var (s', name) := Announce(s, tasks, id, draft, now);
    if name == draft.id {
      forall key ensures IsKnown(s', key) <==> IsKnown(s, key) || key == KeyOfTask(tasks, id) {
        InsertedKeys(s, s', n, key);
      }
    }
  }

  lemma InsertedKeys(s: Store, s': Store, n: Notice, key: string)
    requires n.id !in s.notes && n.dedupeKey.Some?
    requires s'.notes == s.notes[n.id := Note(n, map sink | sink in n.targets :: FRESH)]
    ensures IsKnown(s', key) <==> IsKnown(s, key) || key == n.dedupeKey.value
  {
    if IsKnown(s, key) {
      var id :| IsKeyOf(s, id, key);
      assert IsKeyOf(s', id, key);
    }
    if key == n.dedupeKey.value {
      assert IsKeyOf(s', n.id, key);
    }
    if IsKnown(s', key) {
      var id :| IsKeyOf(s', id, key);
      assert id != n.id ==> IsKeyOf(s, id, key);
    }
  }

  lemma {:induction false} UnpublishedAgrees(s: Store, s': Store, tasks: Tasks, ids: seq<TaskId>)
    requires forall id | id in ids :: IsKnown(s', KeyOfTask(tasks, id)) <==> IsKnown(s, KeyOfTask(tasks, id))
    ensures Unpublished(s', tasks, ids) == Unpublished(s, tasks, ids)
  {
    if ids != [] {
      assert ids[0] in ids;
      UnpublishedAgrees(s, s', tasks, ids[1..]);
    }
  }

  lemma OtherTasksKeepTheirKeys(tasks: Tasks, id: TaskId, ids: seq<TaskId>)
    requires AreTaskIds([id] + ids) && id in tasks
    ensures forall x | x in ids :: KeyOfTask(tasks, x) != KeyOfTask(tasks, id)
  {
    var all := [id] + ids;
    assert all[0] == id;
    forall x | x in ids ensures KeyOfTask(tasks, x) != KeyOfTask(tasks, id) {
      var i :| 0 <= i < |ids| && ids[i] == x;
      assert all[i + 1] == x && all[0] in all && x in all;
      if x in tasks {
        KeysNameTaskAndReason(x, id, TerminalReason(tasks[x].runtime), TerminalReason(tasks[id].runtime));
      } else {
        assert |KeyOfTask(tasks, id)| > 0;
      }
    }
  }

  /** How many of the unpublished tasks a call publishes that has published some already. */
  function Room(limit: Option<int>, published: nat, unpublished: nat): (k: nat)
    ensures k <= unpublished
  {
    if limit.Some? && 0 <= limit.value - published < unpublished then limit.value - published else unpublished
  }

  /** What a call does to the queue of unpublished tasks: it takes the first ones, as many as fit. */
  ghost predicate TakesFirst(s: Store, s': Store, tasks: Tasks, ids: seq<TaskId>, k: nat) {
    && k <= |Unpublished(s, tasks, ids)|
    && Unpublished(s', tasks, ids) == Unpublished(s, tasks, ids)[k..]
    && (forall key | IsKnown(s, key) :: IsKnown(s', key))
  }

  lemma DraftsStayFresh(s: Store, s': Store, drafts: seq<Draft>)
    requires drafts != [] && AreFresh(s, drafts) && s'.notes.Keys <= s.notes.Keys + {drafts[0].id}
    ensures AreFresh(s', drafts[1..])
  {
    forall i | 0 <= i < |drafts[1..]| ensures drafts[1..][i].id !in s'.notes {
      assert drafts[1..][i] == drafts[i + 1];
    }
  }

  /** An announced task leaves the queue, and the queue of the tasks after it stays as it was. */
  lemma AnnounceTakesOne(s: Store, s': Store, tasks: Tasks, ids: seq<TaskId>)
    requires AreTaskIds(ids) && ids != [] && BackgroundTasks.HasEnded(tasks, ids[0])
    requires forall key :: IsKnown(s', key) <==> IsKnown(s, key) || key == KeyOfTask(tasks, ids[0])
    ensures Unpublished(s', tasks, ids) == Unpublished(s, tasks, ids[1..])
    ensures Unpublished(s', tasks, ids[1..]) == Unpublished(s, tasks, ids[1..])
    ensures Unpublished(s, tasks, ids) ==
            (if IsKnown(s, KeyOfTask(tasks, ids[0])) then [] else [ids[0]]) + Unpublished(s, tasks, ids[1..])
  {
    assert ids == [ids[0]] + ids[1..];
    OtherTasksKeepTheirKeys(tasks, ids[0], ids[1..]);
    UnpublishedAgrees(s, s', tasks, ids[1..]);
    assert [] + Unpublished(s, tasks, ids[1..]) == Unpublished(s, tasks, ids[1..]);
  }

  lemma RestAreTaskIds(ids: seq<TaskId>)
    requires AreTaskIds(ids) && ids != []
    ensures AreTaskIds(ids[1..])
  {
    forall id | id in ids[1..] ensures ':' !in id {
      assert id in ids;
    }
  }

  lemma UnpublishedSkips(s: Store, tasks: Tasks, ids: seq<TaskId>)
    requires ids != [] && (!BackgroundTasks.HasEnded(tasks, ids[0]) || IsKnown(s, KeyOfTask(tasks, ids[0])))
    ensures Unpublished(s, tasks, ids) == Unpublished(s, tasks, ids[1..])
  {
  }

  /** The turn that announces the first task and goes on, when the rest of the loop takes the first of what is left. */
  lemma TurnTakesFirst(s: Store, s1: Store, last: Store, tasks: Tasks, ids: seq<TaskId>, more: nat)
    requires AreTaskIds(ids) && ids != [] && BackgroundTasks.HasEnded(tasks, ids[0])
    requires forall key :: IsKnown(s1, key) <==> IsKnown(s, key) || key == KeyOfTask(tasks, ids[0])
    requires TakesFirst(s1, last, tasks, ids[1..], more)
    ensures var k := more + if IsKnown(s, KeyOfTask(tasks, ids[0])) then 0 else 1;
      TakesFirst(s, last, tasks, ids, k)
    ensures |Unpublished(s, tasks, ids)| ==
            |Unpublished(s1, tasks, ids[1..])| + if IsKnown(s, KeyOfTask(tasks, ids[0])) then 0 else 1
  {
    AnnounceTakesOne(s, s1, tasks, ids);
    KnownStaysKnown(s, s1, last, KeyOfTask(tasks, ids[0]));
    UnpublishedSkips(last, tasks, ids);
    if IsKnown(s, KeyOfTask(tasks, ids[0])) {
      DropBoth([], Unpublished(s, tasks, ids[1..]), more);
    } else {
      DropBoth([ids[0]], Unpublished(s, tasks, ids[1..]), more);
    }
  }

  /** The turn whose announcement reaches the limit. */
  lemma LastTurnTakesFirst(s: Store, s1: Store, tasks: Tasks, ids: seq<TaskId>)
    requires AreTaskIds(ids) && ids != [] && BackgroundTasks.HasEnded(tasks, ids[0])
    requires forall key :: IsKnown(s1, key) <==> IsKnown(s, key) || key == KeyOfTask(tasks, ids[0])
    requires !IsKnown(s, KeyOfTask(tasks, ids[0]))
    ensures TakesFirst(s, s1, tasks, ids, 1) && |Unpublished(s, tasks, ids)| >= 1
  {
    AnnounceTakesOne(s, s1, tasks, ids);
    DropBoth([ids[0]], Unpublished(s, tasks, ids[1..]), 0);
  }

  lemma KnownStaysKnown(s: Store, s1: Store, last: Store, key: string)
    requires forall k :: IsKnown(s1, k) <==> IsKnown(s, k) || k == key
    requires forall k | IsKnown(s1, k) :: IsKnown(last, k)
    ensures IsKnown(last, key) && forall k | IsKnown(s, k) :: IsKnown(last, k)
  {
    assert IsKnown(s1, key);
  }

  lemma DropBoth(first: seq<TaskId>, rest: seq<TaskId>, more: nat)
    requires more <= |rest|
    ensures (first + rest)[|first| + more..] == rest[more..]
  {
  }

  /** The first unpublished tasks of the listing are published, as many as the limit still allows. */
  ghost predicate PublishesFirst(s: Store, result: (Store, seq<Id>), tasks: Tasks, ids: seq<TaskId>, limit: Option<int>,
                                 published: nat) {
    var k := Room(limit, published, |Unpublished(s, tasks, ids)|);
    && Valid(result.0) && KeysAreUnique(result.0)
    && |result.1| == published + k && TakesFirst(s, result.0, tasks, ids, k)
  }

  lemma RoomAfterOne(limit: Option<int>, published: nat, unpublished: nat)
    requires limit.Some? ==> published + 1 < limit.value
    ensures Room(limit, published, unpublished + 1) == Room(limit, published + 1, unpublished) + 1
  {
  }

  /** The turn that announces the first task and goes on with the rest of the loop. */
  lemma TurnGoesOn(s: Store, s1: Store, result: (Store, seq<Id>), tasks: Tasks, ids: seq<TaskId>, limit: Option<int>,
                   published: nat, published1: nat)
    requires AreTaskIds(ids) && ids != [] && BackgroundTasks.HasEnded(tasks, ids[0])
    requires forall key :: IsKnown(s1, key) <==> IsKnown(s, key) || key == KeyOfTask(tasks, ids[0])
    requires published1 == published + if IsKnown(s, KeyOfTask(tasks, ids[0])) then 0 else 1
    requires limit.Some? ==> published1 < limit.value
    requires PublishesFirst(s1, result, tasks, ids[1..], limit, published1)
    ensures PublishesFirst(s, result, tasks, ids, limit, published)
  {
    var rest := |Unpublished(s1, tasks, ids[1..])|;
    var more := Room(limit, published1, rest);
    TurnTakesFirst(s, s1, result.0, tasks, ids, more);
    if !IsKnown(s, KeyOfTask(tasks, ids[0])) {
      RoomAfterOne(limit, published, rest);
    }
  }

  /** The turn that announces a task and reaches the limit with it. */
  lemma TurnStops(s: Store, s1: Store, published: seq<Id>, tasks: Tasks, ids: seq<TaskId>, limit: int)
    requires AreTaskIds(ids) && ids != [] && BackgroundTasks.HasEnded(tasks, ids[0])
    requires forall key :: IsKnown(s1, key) <==> IsKnown(s, key) || key == KeyOfTask(tasks, ids[0])
    requires !IsKnown(s, KeyOfTask(tasks, ids[0])) && published != [] && |published| == limit
    requires Valid(s1) && KeysAreUnique(s1)
    ensures PublishesFirst(s, (s1, published), tasks, ids, Some(limit), |published| - 1)
  {
    LastTurnTakesFirst(s, s1, tasks, ids);
  }

  lemma PublishFromSkips(s: Store, tasks: Tasks, ids: seq<TaskId>, drafts: seq<Draft>, limit: Option<int>, now: int,
                         published: seq<Id>)
    requires |drafts| == |ids| && ids != [] && !BackgroundTasks.HasEnded(tasks, ids[0])
    ensures PublishFrom(s, tasks, ids, drafts, limit, now, published) ==
            PublishFrom(s, tasks, ids[1..], drafts[1..], limit, now, published)
  {
  }

  lemma PublishFromAnnounces(s: Store, tasks: Tasks, ids: seq<TaskId>, drafts: seq<Draft>, limit: Option<int>, now: int,
                             published: seq<Id>)
    returns (s1: Store, published1: seq<Id>)
    requires Valid(s) && KeysAreUnique(s) && |drafts| == |ids| && ids != [] && AreFresh(s, drafts)
    requires BackgroundTasks.HasEnded(tasks, ids[0])
    ensures Valid(s1) && KeysAreUnique(s1) && AreFresh(s1, drafts[1..])
    ensures forall key :: IsKnown(s1, key) <==> IsKnown(s, key) || key == KeyOfTask(tasks, ids[0])
    ensures |published1| == |published| + if IsKnown(s, KeyOfTask(tasks, ids[0])) then 0 else 1
    ensures PublishFrom(s, tasks, ids, drafts, limit, now, published) ==
            if limit.Some? && |published1| >= limit.value then (s1, published1)
            else PublishFrom(s1, tasks, ids[1..], drafts[1..], limit, now, published1)
  {
    var announced := Announce(s, tasks, ids[0], drafts[0], now);
    AnnounceAddsItsKey(s, tasks, ids[0], drafts[0], now);
    DraftsStayFresh(s, announced.0, drafts);
    s1, published1 := announced.0, if announced.1 == drafts[0].id then published + [drafts[0].id] else published;
  }

  /**
   With room for at least one more, a call publishes the first unpublished tasks of the listing, exactly as many as
   the limit still allows, and leaves the others queued in order.
   */
  lemma {:induction false} PublishFromTakesFirst(s: Store, tasks: Tasks, ids: seq<TaskId>, drafts: seq<Draft>,
                                                 limit: Option<int>, now: int, published: seq<Id>)
    requires Valid(s) && KeysAreUnique(s) && AreTaskIds(ids) && |drafts| == |ids| && AreFresh(s, drafts)
    requires limit.Some? ==> |published| < limit.value
    ensures PublishesFirst(s, PublishFrom(s, tasks, ids, drafts, limit, now, published), tasks, ids, limit, |published|)
    decreases |ids|
  {
    if ids == [] {
      return;
    }
    RestAreTaskIds(ids);
    if !BackgroundTasks.HasEnded(tasks, ids[0]) {
      DraftsStayFresh(s, s, drafts);
      PublishFromSkips(s, tasks, ids, drafts, limit, now, published);
      PublishFromTakesFirst(s, tasks, ids[1..], drafts[1..], limit, now, published);
      UnpublishedSkips(s, tasks, ids);
      UnpublishedSkips(PublishFrom(s, tasks, ids[1..], drafts[1..], limit, now, published).0, tasks, ids);
    } else {
      var s1, published1 := PublishFromAnnounces(s, tasks, ids, drafts, limit, now, published);
      if limit.Some? && |published1| >= limit.value {
        TurnStops(s, s1, published1, tasks, ids, limit.value);
      } else {
        PublishFromTakesFirst(s1, tasks, ids[1..], drafts[1..], limit, now, published1);
        TurnGoesOn(s, s1, PublishFrom(s1, tasks, ids[1..], drafts[1..], limit, now, published1), tasks, ids, limit,
          |published|, |published1|);
      }
    }
  }

  // ---- Whole calls ----

  function PublishTerminal(s: Store, tasks: Tasks, ids: seq<TaskId>, drafts: seq<Draft>, limit: Option<int>, now: int)
    : (Store, seq<Id>)
    requires |drafts| == |ids|
  {
    PublishFrom(s, tasks, ids, drafts, limit, now, [])
  }

  /** With no limit, or one of at least one, a call publishes the lesser of the limit and the number unpublished. */
  lemma CallPublishesTheLimit(s: Store, tasks: Tasks, ids: seq<TaskId>, drafts: seq<Draft>, limit: Option<int>, now: int)
    requires Valid(s) && KeysAreUnique(s) && AreTaskIds(ids) && |drafts| == |ids| && AreFresh(s, drafts)
    requires limit.Some? ==> limit.value >= 1
    ensures var (s', published) := PublishTerminal(s, tasks, ids, drafts, limit, now);
      var n := |Unpublished(s, tasks, ids)|;
      && Valid(s') && KeysAreUnique(s')
      && |published| == (if limit.Some? && limit.value < n then limit.value else n)
      && TakesFirst(s, s', tasks, ids, |published|)
  {
    PublishFromTakesFirst(s, tasks, ids, drafts, limit, now, []);
  }

  lemma {:induction false} NothingNewFrom(s: Store, tasks: Tasks, ids: seq<TaskId>, drafts: seq<Draft>, limit: Option<int>, now: int)
    requires Valid(s) && KeysAreUnique(s) && |drafts| == |ids| && AreFresh(s, drafts)
    requires Unpublished(s, tasks, ids) == []
    ensures PublishFrom(s, tasks, ids, drafts, limit, now, []) == (s, [])
    decreases |ids|
  {
    if ids != [] {
      DraftsStayFresh(s, s, drafts);
      NothingNewFrom(s, tasks, ids[1..], drafts[1..], limit, now);
      if BackgroundTasks.HasEnded(tasks, ids[0]) {
        AnnounceAddsItsKey(s, tasks, ids[0], drafts[0], now);
      }
    }
  }

  /** Once an unlimited call has returned, no call publishes anything until some task changes. */
  lemma RepeatPublishesNothing(s: Store, tasks: Tasks, ids: seq<TaskId>, drafts: seq<Draft>, now: int,
                               again: seq<Draft>, limit: Option<int>, later: int)
    requires Valid(s) && KeysAreUnique(s) && AreTaskIds(ids) && |drafts| == |ids| == |again| && AreFresh(s, drafts)
    requires AreFresh(PublishTerminal(s, tasks, ids, drafts, None, now).0, again)
    ensures var s' := PublishTerminal(s, tasks, ids, drafts, None, now).0;
      PublishTerminal(s', tasks, ids, again, limit, later) == (s', [])
  {
    CallPublishesTheLimit(s, tasks, ids, drafts, None, now);
    NothingNewFrom(PublishTerminal(s, tasks, ids, drafts, None, now).0, tasks, ids, again, limit, later);
  }

  function FirstOver(tasks: Tasks, ids: seq<TaskId>): Option<TaskId> {
    if ids == [] then None else if BackgroundTasks.HasEnded(tasks, ids[0]) then Some(ids[0]) else FirstOver(tasks, ids[1..])
  }

  /** A limit of zero or less looks at the first finished task only, published already or not. */
  lemma {:induction false} ZeroLimitLooksAtOne(s: Store, tasks: Tasks, ids: seq<TaskId>, drafts: seq<Draft>, limit: int, now: int)
    requires Valid(s) && KeysAreUnique(s) && |drafts| == |ids| && AreFresh(s, drafts) && limit <= 0
    ensures var (s', published) := PublishTerminal(s, tasks, ids, drafts, Some(limit), now);
      var first := FirstOver(tasks, ids);
      && (|published| == 1 <==> first.Some? && !IsKnown(s, KeyOfTask(tasks, first.value)))
      && (|published| != 1 ==> published == [] && s' == s)
      && (forall key | IsKnown(s', key) :: IsKnown(s, key) || (first.Some? && key == KeyOfTask(tasks, first.value)))
    decreases |ids|
  {
    if ids != [] {
      if BackgroundTasks.HasEnded(tasks, ids[0]) {
        AnnounceAddsItsKey(s, tasks, ids[0], drafts[0], now);
      } else {
        DraftsStayFresh(s, s, drafts);
        ZeroLimitLooksAtOne(s, tasks, ids[1..], drafts[1..], limit, now);
      }
    }
  }

  /** While no worker writes late, a finished task keeps the key under which it is announced, so it is announced once. */
  lemma FinishedTaskKeepsItsKey(g: BackgroundTasks.Settings, s: BackgroundTasks.State, events: seq<BackgroundTasks.Event>,
                                id: TaskId)
    requires BackgroundTasks.TaskInv(s, id) && BackgroundTasks.IsOver(s, id)
    requires BackgroundTasks.Runs(g, s, events) && BackgroundTasks.WritesInTime(g, s, events)
    ensures KeyOfTask(BackgroundTasks.Run(g, s, events).tasks, id) == KeyOfTask(s.tasks, id)
  {
    BackgroundTasks.TerminalIsForGood(g, s, events, id);
  }

  // ---- Repeated calls ----

  /** A call with a limit, whatever fresh ids it draws and whenever it happens. */
  ghost predicate IsCall(s: Store, s': Store, tasks: Tasks, ids: seq<TaskId>, limit: int) {
    exists drafts: seq<Draft>, now: int | |drafts| == |ids| && AreFresh(s, drafts) ::
      s' == PublishTerminal(s, tasks, ids, drafts, Some(limit), now).0
  }

  lemma OneCall(s: Store, s': Store, tasks: Tasks, ids: seq<TaskId>, limit: nat)
    requires Valid(s) && KeysAreUnique(s) && AreTaskIds(ids) && limit >= 1 && IsCall(s, s', tasks, ids, limit)
    ensures Valid(s') && KeysAreUnique(s')
    ensures var queue := Unpublished(s, tasks, ids);
      Unpublished(s', tasks, ids) == queue[BatchSize(limit, |queue|)..]
  {
    var drafts: seq<Draft>, now: int :| |drafts| == |ids| && AreFresh(s, drafts)
                                     && s' == PublishTerminal(s, tasks, ids, drafts, Some(limit), now).0;
    CallPublishesTheLimit(s, tasks, ids, drafts, Some(limit), now);
  }

  ghost predicate AreCalls(stores: seq<Store>, tasks: Tasks, ids: seq<TaskId>, limit: int) {
    forall i, j | 0 <= i < |stores| && j == i + 1 < |stores| :: IsCall(stores[i], stores[j], tasks, ids, limit)
  }

  lemma LaterCalls(stores: seq<Store>, tasks: Tasks, ids: seq<TaskId>, limit: int)
    requires |stores| > 1 && AreCalls(stores, tasks, ids, limit)
    ensures IsCall(stores[0], stores[1], tasks, ids, limit)
    ensures AreCalls(stores[1..], tasks, ids, limit)
  {
    var rest := stores[1..];
    forall i, j | 0 <= i < |rest| && j == i + 1 < |rest| ensures IsCall(rest[i], rest[j], tasks, ids, limit) {
      assert IsCall(stores[i + 1], stores[j + 1], tasks, ids, limit);
    }
  }

  /** Calls with a limit of at least one work the queue off from its front: the first tasks first, none left behind. */
  lemma {:induction false} RepeatedCallsStarveNone(stores: seq<Store>, tasks: Tasks, ids: seq<TaskId>, limit: nat)
    requires |stores| > 0 && Valid(stores[0]) && KeysAreUnique(stores[0]) && AreTaskIds(ids) && limit >= 1
    requires AreCalls(stores, tasks, ids, limit)
    ensures var queue := Unpublished(stores[0], tasks, ids);
      Unpublished(stores[|stores| - 1], tasks, ids) == queue[Deliveries.Reach(limit, |stores| - 1, |queue|)..]
    decreases |stores|
  {
    if |stores| > 1 {
      LaterCalls(stores, tasks, ids, limit);
      OneCall(stores[0], stores[1], tasks, ids, limit);
      RepeatedCallsStarveNone(stores[1..], tasks, ids, limit);
      assert stores[1..][|stores| - 2] == stores[|stores| - 1];
      QueueWorkedOff(Unpublished(stores[0], tasks, ids), Unpublished(stores[1], tasks, ids),
        Unpublished(stores[|stores| - 1], tasks, ids), limit, |stores| - 1);
    }
  }

  lemma QueueWorkedOff(queue: seq<TaskId>, middle: seq<TaskId>, last: seq<TaskId>, limit: nat, calls: nat)
    requires limit >= 1 && calls >= 1 && middle == queue[BatchSize(limit, |queue|)..]
    requires last == middle[Deliveries.Reach(limit, calls - 1, |middle|)..]
    ensures last == queue[Deliveries.Reach(limit, calls, |queue|)..]
  {
    Deliveries.DrainOnce(queue, limit, calls, queue[..BatchSize(limit, |queue|)], middle,
      middle[..Deliveries.Reach(limit, calls - 1, |middle|)], last);
  }

  /** The reason tells a timeout apart, and otherwise names the status as the records do. */
  lemma ReasonNamesTheOutcome(r: BackgroundTasks.Runtime)
    requires BackgroundTasks.IsTerminal(r.status)
    ensures TerminalReason(r) == "timed_out" <==> r.timedOut
    ensures TerminalReason(r) == "completed" <==> !r.timedOut && r.status == BackgroundTasks.Completed
    ensures TerminalReason(r) == "failed" <==> !r.timedOut && r.status == BackgroundTasks.Failed
    ensures TerminalReason(r) == "killed" <==> !r.timedOut && r.status == BackgroundTasks.Killed
    ensures TerminalReason(r) == "lost" <==> !r.timedOut && r.status == BackgroundTasks.Lost
  {
  }
}
