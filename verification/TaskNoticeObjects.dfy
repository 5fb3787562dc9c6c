/** The manager's announcement of finished tasks over its task store and the notification manager. */
module TaskNoticeObjects {
  import opened Wrappers
  import opened Listings
  import opened Notifications
  import opened NotificationObjects
  import opened TaskNotices
  import BackgroundTasks
  import BackgroundObjects

  /** One turn of the loop over the listed tasks. */
  lemma PublishTurn(s: Store, tasks: Tasks, views: seq<TaskId>, drafts: seq<Draft>, i: nat, limit: Option<int>, now: int,
                    published: seq<Id>)
    requires |drafts| == |views| && i < |views|
    ensures var announced := Announce(s, tasks, views[i], drafts[i], now);
      var published' := if announced.1 == drafts[i].id then published + [drafts[i].id] else published;
      PublishFrom(s, tasks, views[i..], drafts[i..], limit, now, published) ==
      if !BackgroundTasks.HasEnded(tasks, views[i]) then
        PublishFrom(s, tasks, views[i + 1..], drafts[i + 1..], limit, now, published)
      else if limit.Some? && |published'| >= limit.value then (announced.0, published')
      else PublishFrom(announced.0, tasks, views[i + 1..], drafts[i + 1..], limit, now, published')
  {
    assert views[i..][1..] == views[i + 1..] && drafts[i..][1..] == drafts[i + 1..];
  }

  /** Publishing the notice of one finished task; the drafts still to come stay fresh. */
  method AnnounceTask(notifications: NotificationManager, tasks: Tasks, id: TaskId, drafts: seq<Draft>, now: int)
    returns (name: Id)
    requires Valid(notifications.Contents()) && KeysAreUnique(notifications.Contents())
    requires id in tasks && drafts != [] && AreFresh(notifications.Contents(), drafts)
    modifies notifications
    ensures (notifications.Contents(), name) == Announce(old(notifications.Contents()), tasks, id, drafts[0], now)
    ensures Valid(notifications.Contents()) && KeysAreUnique(notifications.Contents())
    ensures AreFresh(notifications.Contents(), drafts[1..])
  {
    AnnounceAddsItsKey(notifications.Contents(), tasks, id, drafts[0], now);
    ghost var before := notifications.Contents();
    name := notifications.PublishNotice(NoticeOf(tasks, id, drafts[0], now), SlotIn(notifications.Contents(), drafts[0]));
    DraftsStayFresh(before, notifications.Contents(), drafts);
  }

  /** The loop of `publish_terminal_notifications` over the listed tasks. */
  method PublishListed(notifications: NotificationManager, tasks: Tasks, views: seq<TaskId>, drafts: seq<Draft>,
                       limit: Option<int>, now: int)
    returns (published: seq<Id>)
    requires |drafts| == |views| && forall i | 0 <= i < |views| :: views[i] in tasks
    requires Valid(notifications.Contents()) && KeysAreUnique(notifications.Contents())
    requires AreFresh(notifications.Contents(), drafts)
    modifies notifications
    ensures (notifications.Contents(), published) ==
            PublishTerminal(old(notifications.Contents()), tasks, views, drafts, limit, now)
  {
    ghost var result := PublishTerminal(notifications.Contents(), tasks, views, drafts, limit, now);
    published := [];
    for i := 0 to |views|
      invariant Valid(notifications.Contents()) && KeysAreUnique(notifications.Contents())
      invariant AreFresh(notifications.Contents(), drafts[i..])
      invariant result == PublishFrom(notifications.Contents(), tasks, views[i..], drafts[i..], limit, now, published)
    {
      PublishTurn(notifications.Contents(), tasks, views, drafts, i, limit, now, published);
      assert drafts[i..][0] == drafts[i] && drafts[i..][1..] == drafts[i + 1..];
      if BackgroundTasks.IsTerminal(tasks[views[i]].runtime.status) {
        var name := AnnounceTask(notifications, tasks, views[i], drafts[i..], now);
        if name == drafts[i].id {
          published := published + [name];
        }
        if limit.Some? && |published| >= limit.value {
          return;
        }
      } else {
        DraftsStayFresh(notifications.Contents(), notifications.Contents(), drafts[i..]);
      }
    }
  }

  /** `publish_terminal_notifications`: `drafts` are the ids it draws, one for each listed task. */
  method PublishTerminalNotifications(store: BackgroundObjects.TaskStore, notifications: NotificationManager,
                                      drafts: seq<Draft>, limit: Option<int>, now: int)
    returns (published: seq<Id>)
    requires store.Valid() && |drafts| == |store.order|
    requires Valid(notifications.Contents()) && KeysAreUnique(notifications.Contents())
    requires AreFresh(notifications.Contents(), drafts)
    modifies notifications
    ensures (notifications.Contents(), published) ==
            PublishTerminal(old(notifications.Contents()), store.tasks, ListTasks(store.order, store.tasks), drafts, limit, now)
  {
    ListedTasksExist(store.order, store.tasks);
    published := PublishListed(notifications, store.tasks, ListTasks(store.order, store.tasks), drafts, limit, now);
  }

  lemma ListedTasksExist(order: seq<TaskId>, tasks: Tasks)
    requires forall id :: id in order <==> id in tasks
    ensures forall id | id in ListTasks(order, tasks) :: id in tasks
  {
    SortKeepsElements(order, map id | id in tasks ::
      BackgroundTasks.Or(Some(tasks[id].runtime.updatedAt), tasks[id].spec.createdAt));
  }
}
