/** Notifications published once per key and delivered to each sink by claiming, acknowledging and recovering. */
module Notifications {
  import opened Wrappers
  import opened Listings

  type Id = string

  datatype Sink = Llm | Wire | Shell

  datatype SinkStatus = Pending | Claimed | Acked

  datatype SinkState = SinkState(status: SinkStatus, claimedAt: Option<int>, ackedAt: Option<int>)

  const FRESH: SinkState := SinkState(Pending, None, None)

  datatype Notice = Notice(id: Id, createdAt: int, dedupeKey: Option<string>, targets: set<Sink>)

  datatype Note = Note(notice: Notice, sinks: map<Sink, SinkState>)

  /** The directory listing of the records, in the order of their names, and the records themselves. */
  datatype Store = Store(order: seq<Id>, notes: map<Id, Note>)

  ghost predicate Valid(s: Store) {
    && Distinct(s.order)
    && (forall id :: id in s.order <==> id in s.notes)
    && (forall id | id in s.notes :: s.notes[id].notice.id == id)
  }

  function CreationTimes(s: Store): map<Id, int> {
    map id | id in s.notes :: s.notes[id].notice.createdAt
  }

  function ListViews(s: Store): seq<Id> {
    SortDescending(s.order, CreationTimes(s))
  }

  // ---- Publishing ----

  predicate HasKey(n: Notice) {
    n.dedupeKey.Some? && n.dedupeKey.value != ""
  }

  predicate IsKeyOf(s: Store, id: Id, key: string) {
    id in s.notes && s.notes[id].notice.dedupeKey == Some(key)
  }

  function FindIn(s: Store, ids: seq<Id>, key: string): Option<Id> {
    if ids == [] then None else if IsKeyOf(s, ids[0], key) then Some(ids[0]) else FindIn(s, ids[1..], key)
  }

  function FindByDedupeKey(s: Store, key: string): Option<Id> {
    FindIn(s, ListViews(s), key)
  }

  /** `at` is where the new record's name falls in the listing. */
  function Insert(s: Store, n: Notice, at: nat): Store
    requires at <= |s.order|
  {
    Store(s.order[..at] + [n.id] + s.order[at..],
          s.notes[n.id := Note(n, map sink | sink in n.targets :: FRESH)])
  }

  /** The store afterwards, and the id of the notification that stands for the notice. */
  function Publish(s: Store, n: Notice, at: nat): (Store, Id)
    requires at <= |s.order|
  {
    if HasKey(n) && FindByDedupeKey(s, n.dedupeKey.value).Some?
    then (s, FindByDedupeKey(s, n.dedupeKey.value).value)
    else (Insert(s, n, at), n.id)
  }

  ghost predicate KeysAreUnique(s: Store) {
    forall a, b | a in s.notes && b in s.notes && HasKey(s.notes[a].notice) &&
                  s.notes[a].notice.dedupeKey == s.notes[b].notice.dedupeKey :: a == b
  }

  lemma {:induction false} FindInFinds(s: Store, ids: seq<Id>, key: string)
    ensures FindIn(s, ids, key).Some? <==> exists id :: id in ids && IsKeyOf(s, id, key)
    ensures FindIn(s, ids, key).Some? ==>
              FindIn(s, ids, key).value in ids && IsKeyOf(s, FindIn(s, ids, key).value, key)
  {
    if ids != [] {
      FindInFinds(s, ids[1..], key);
      assert ids == [ids[0]] + ids[1..];
    }
  }

  lemma FindByKeyFinds(s: Store, key: string)
    requires Valid(s)
    ensures FindByDedupeKey(s, key).Some? <==> exists id :: IsKeyOf(s, id, key)
    ensures FindByDedupeKey(s, key).Some? ==> IsKeyOf(s, FindByDedupeKey(s, key).value, key)
  {
    SortKeepsElements(s.order, CreationTimes(s));
    FindInFinds(s, ListViews(s), key);
    if id :| IsKeyOf(s, id, key) {
      assert id in ListViews(s);
    }
  }

  lemma InsertIsValid(s: Store, n: Notice, at: nat)
    requires Valid(s) && at <= |s.order| && n.id !in s.notes
    ensures Valid(Insert(s, n, at))
  {
    var order := Insert(s, n, at).order;
    assert s.order == s.order[..at] + s.order[at..];
    forall id ensures id in order <==> id in s.order || id == n.id {
    }
    forall i, j | 0 <= i < j < |order| ensures order[i] != order[j] {
      assert i != at ==> order[i] == s.order[if i < at then i else i - 1];
      assert j != at ==> order[j] == s.order[if j < at then j else j - 1];
    }
  }

  lemma InsertKeepsKeys(s: Store, n: Notice, at: nat)
    requires KeysAreUnique(s) && at <= |s.order| && n.id !in s.notes
    requires HasKey(n) ==> forall id | id in s.notes :: s.notes[id].notice.dedupeKey != n.dedupeKey
    ensures KeysAreUnique(Insert(s, n, at))
  {
  }

  /**
   A notice is new exactly when no stored notification has its key, and then only it is added; otherwise the stored
   one stands for it and nothing changes. Keys stay unique.
   */
  lemma PublishOncePerKey(s: Store, n: Notice, at: nat)
    requires Valid(s) && KeysAreUnique(s) && at <= |s.order| && n.id !in s.notes
    ensures var (s', id) := Publish(s, n, at);
      && Valid(s') && KeysAreUnique(s')
      && (id == n.id <==> !(HasKey(n) && exists other :: IsKeyOf(s, other, n.dedupeKey.value)))
      && (id != n.id ==> s' == s && IsKeyOf(s, id, n.dedupeKey.value))
      && (id == n.id ==> s'.notes == s.notes[n.id := Note(n, map sink | sink in n.targets :: FRESH)])
  {
    if HasKey(n) {
      FindByKeyFinds(s, n.dedupeKey.value);
      if FindByDedupeKey(s, n.dedupeKey.value).Some? {
        return;
      }
      assert forall id | id in s.notes :: !IsKeyOf(s, id, n.dedupeKey.value);
    }
    InsertIsValid(s, n, at);
    InsertKeepsKeys(s, n, at);
  }

  // ---- Claiming, acknowledging, recovering ----

  predicate IsStale(st: SinkState, now: int, staleAfter: nat) {
    st.status == Claimed && st.claimedAt.Some? && now - st.claimedAt.value > staleAfter
  }

  function RecoverSink(st: SinkState, now: int, staleAfter: nat): SinkState {
    if IsStale(st, now, staleAfter) then st.(status := Pending, claimedAt := None) else st
  }

  function RecoverNote(n: Note, now: int, staleAfter: nat): Note {
    n.(sinks := map sink | sink in n.sinks :: RecoverSink(n.sinks[sink], now, staleAfter))
  }

  function Recover(s: Store, now: int, staleAfter: nat): Store {
    s.(notes := map id | id in s.notes :: RecoverNote(s.notes[id], now, staleAfter))
  }

  /** The oldest first; of equally old ones, the last listed first. */
  function OldestFirst(s: Store): seq<Id> {
    Reversed(ListViews(s))
  }

  predicate HasSink(s: Store, id: Id, sink: Sink) {
    id in s.notes && sink in s.notes[id].sinks
  }

  function StatusOf(s: Store, id: Id, sink: Sink): Option<SinkStatus> {
    if HasSink(s, id, sink) then Some(s.notes[id].sinks[sink].status) else None
  }

  function PendingSet(s: Store, sink: Sink): set<Id> {
    set id | id in s.notes && StatusOf(s, id, sink) == Some(Pending)
  }

  /** What a sink still has to be handed, in the order in which it will be. */
  function Due(s: Store, sink: Sink): seq<Id> {
    Select(OldestFirst(s), PendingSet(s, sink))
  }

  /** The loop stops after the claim that reaches the limit, so it claims one even for a limit of zero or less. */
  function BatchSize(limit: int, available: nat): nat {
    if limit <= 1 then (if available == 0 then 0 else 1) else if limit < available then limit else available
  }

  function ClaimNote(n: Note, sink: Sink, now: int): Note
    requires sink in n.sinks
  {
    n.(sinks := n.sinks[sink := n.sinks[sink].(status := Claimed, claimedAt := Some(now))])
  }

  function ClaimAll(s: Store, ids: seq<Id>, sink: Sink, now: int): Store {
    s.(notes := map id | id in s.notes ::
      if id in ids && HasSink(s, id, sink) then ClaimNote(s.notes[id], sink, now) else s.notes[id])
  }

  function Claims(s: Store, sink: Sink, limit: int): seq<Id> {
    Due(s, sink)[..BatchSize(limit, |Due(s, sink)|)]
  }

  /** Recovery reads the clock before the claims do. */
  function ClaimForSink(s: Store, sink: Sink, limit: int, recoveredAt: int, now: int, staleAfter: nat): (Store, seq<Id>) {
    var recovered := Recover(s, recoveredAt, staleAfter);
    var ids := Claims(recovered, sink, limit);
    (ClaimAll(recovered, ids, sink, now), ids)
  }

  function AckNote(n: Note, sink: Sink, now: int): Note {
    if sink in n.sinks then n.(sinks := n.sinks[sink := SinkState(Acked, None, Some(now))]) else n
  }

  function Ack(s: Store, sink: Sink, id: Id, now: int): Store {
    if id in s.notes then s.(notes := s.notes[id := AckNote(s.notes[id], sink, now)]) else s
  }

  /** Acknowledging some ids, each at its own time. */
  function AckAll(s: Store, sink: Sink, ids: set<Id>, ackedAt: Id -> int): Store {
    s.(notes := map id | id in s.notes :: if id in ids then AckNote(s.notes[id], sink, ackedAt(id)) else s.notes[id])
  }

  /** The times of one poll: its recovery, its claims and each acknowledgement after the handler. */
  datatype Clock = Clock(recoveredAt: int, now: int, ackedAt: Id -> int)

  /** One poll in which the handlers of `failing` ids raise: those stay claimed, the others are acknowledged. */
  function Deliver(s: Store, sink: Sink, limit: int, failing: set<Id>, clock: Clock, staleAfter: nat): (Store, seq<Id>) {
    var (claimed, ids) := ClaimForSink(s, sink, limit, clock.recoveredAt, clock.now, staleAfter);
    (AckAll(claimed, sink, Elements(ids) - failing, clock.ackedAt), Select(ids, Elements(ids) - failing))
  }

  lemma OldestFirstProperties(s: Store)
    requires Valid(s)
    ensures Distinct(OldestFirst(s))
    ensures forall id :: id in OldestFirst(s) <==> id in s.notes
  {
    SortKeepsElements(s.order, CreationTimes(s));
    ReversedProperties(ListViews(s));
  }

  lemma ReversedProperties(ids: seq<Id>)
    ensures forall id :: id in Reversed(ids) <==> id in ids
    ensures Distinct(ids) ==> Distinct(Reversed(ids))
  {
    forall id | id in ids ensures id in Reversed(ids) {
      var i :| 0 <= i < |ids| && ids[i] == id;
      assert Reversed(ids)[|ids| - 1 - i] == id;
    }
  }

  lemma OldestFirstAscends(s: Store, i: nat, j: nat)
    requires i < j < |OldestFirst(s)|
    ensures KeyOf(CreationTimes(s), OldestFirst(s)[i]) <= KeyOf(CreationTimes(s), OldestFirst(s)[j])
  {
    SortDescends(s.order, CreationTimes(s));
  }

  lemma DueProperties(s: Store, sink: Sink)
    requires Valid(s)
    ensures Distinct(Due(s, sink))
    ensures forall id :: id in Due(s, sink) <==> StatusOf(s, id, sink) == Some(Pending)
    ensures Elements(Due(s, sink)) == PendingSet(s, sink)
    ensures |Due(s, sink)| == |PendingSet(s, sink)|
  {
    OldestFirstProperties(s);
    SelectIsDistinct(OldestFirst(s), PendingSet(s, sink));
    DistinctCount(Due(s, sink));
    assert Elements(Due(s, sink)) == PendingSet(s, sink);
  }

  lemma DueIsOldestFirst(s: Store, sink: Sink, i: nat, j: nat)
    requires Valid(s) && i < j < |Due(s, sink)|
    ensures KeyOf(CreationTimes(s), Due(s, sink)[i]) <= KeyOf(CreationTimes(s), Due(s, sink)[j])
  {
    SelectKeepsOrder(OldestFirst(s), PendingSet(s, sink), i, j);
    var oldest, due := OldestFirst(s), Due(s, sink);
    var a, b :| 0 <= a < b < |oldest| && oldest[a] == due[i] && oldest[b] == due[j];
    OldestFirstAscends(s, a, b);
  }

  lemma RecoverIsValid(s: Store, now: int, staleAfter: nat)
    requires Valid(s)
    ensures Valid(Recover(s, now, staleAfter)) && CreationTimes(Recover(s, now, staleAfter)) == CreationTimes(s)
  {
  }

  lemma ClaimAllIsValid(s: Store, ids: seq<Id>, sink: Sink, now: int)
    requires Valid(s)
    ensures var s' := ClaimAll(s, ids, sink, now);
      && Valid(s') && CreationTimes(s') == CreationTimes(s)
      && (forall id :: StatusOf(s', id, sink) ==
                       if id in ids && HasSink(s, id, sink) then Some(Claimed) else StatusOf(s, id, sink))
  {
  }

  lemma ClaimLeavesNoneOlder(s: Store, sink: Sink, limit: int, a: Id, b: Id)
    requires Valid(s) && a in Claims(s, sink, limit)
    requires b in Due(s, sink) && b !in Claims(s, sink, limit)
    ensures KeyOf(CreationTimes(s), a) <= KeyOf(CreationTimes(s), b)
  {
    var due, ids := Due(s, sink), Claims(s, sink, limit);
    var i :| 0 <= i < |ids| && ids[i] == a;
    var j :| 0 <= j < |due| && due[j] == b;
    assert due[i] == a;
    assert forall k | 0 <= k < |ids| :: due[k] in ids;
    DueIsOldestFirst(s, sink, i, j);
  }

  lemma ClaimsArePending(s: Store, sink: Sink, limit: int)
    requires Valid(s)
    ensures Distinct(Claims(s, sink, limit))
    ensures |Claims(s, sink, limit)| == BatchSize(limit, |PendingSet(s, sink)|)
    ensures forall id | id in Claims(s, sink, limit) :: StatusOf(s, id, sink) == Some(Pending) && HasSink(s, id, sink)
  {
    DueProperties(s, sink);
    assert forall id | id in Claims(s, sink, limit) :: id in Due(s, sink);
  }

  /** A claim takes pending notifications only, as many as the limit allows, and none older is left pending. */
  lemma ClaimTakesTheOldest(s: Store, sink: Sink, limit: int, recoveredAt: int, now: int, staleAfter: nat)
    requires Valid(s)
    ensures var recovered := Recover(s, recoveredAt, staleAfter);
      var (s', ids) := ClaimForSink(s, sink, limit, recoveredAt, now, staleAfter);
      && Valid(s') && Distinct(ids)
      && |ids| == BatchSize(limit, |PendingSet(recovered, sink)|)
      && (forall id | id in ids :: StatusOf(recovered, id, sink) == Some(Pending)
                                && StatusOf(s', id, sink) == Some(Claimed))
      && (forall a, b | a in ids && StatusOf(s', b, sink) == Some(Pending) ::
            KeyOf(CreationTimes(s), a) <= KeyOf(CreationTimes(s), b))
  {
    var recovered := Recover(s, recoveredAt, staleAfter);
    var ids := Claims(recovered, sink, limit);
    RecoverIsValid(s, recoveredAt, staleAfter);
    ClaimsArePending(recovered, sink, limit);
    ClaimAllIsValid(recovered, ids, sink, now);
    DueProperties(recovered, sink);
    var s' := ClaimAll(recovered, ids, sink, now);
    forall a, b | a in ids && StatusOf(s', b, sink) == Some(Pending)
      ensures KeyOf(CreationTimes(s), a) <= KeyOf(CreationTimes(s), b)
    {
      ClaimLeavesNoneOlder(recovered, sink, limit, a, b);
    }
  }

  lemma {:induction false} DistinctCount(ids: seq<Id>)
    requires Distinct(ids)
    ensures |Elements(ids)| == |ids|
  {
    if ids != [] {
      var front, last := ids[..|ids| - 1], ids[|ids| - 1];
      DistinctCount(front);
      assert ids == front + [last];
      assert Elements(ids) == Elements(front) + {last};
      assert last !in front;
    }
  }

  /** A notice without a key, or with an empty one, is always new. */
  lemma NoticeWithoutKeyIsStored(s: Store, n: Notice, at: nat)
    requires at <= |s.order| && (n.dedupeKey.None? || n.dedupeKey == Some(""))
    ensures var (s', id) := Publish(s, n, at);
      && id == n.id && id in s'.notes && s'.notes[id].notice == n && s'.order == s.order[..at] + [id] + s.order[at..]
      && s'.notes[id].sinks.Keys == n.targets
      && forall sink | sink in n.targets :: s'.notes[id].sinks[sink] == SinkState(Pending, None, None)
  {
  }

  /** What the three operations write into the state of one sink, and that they write nothing else of the note. */
  lemma SinkIsWritten(s: Store, id: Id, sink: Sink, now: int, staleAfter: nat)
    requires HasSink(s, id, sink)
    ensures var st, note := s.notes[id].sinks[sink], s.notes[id];
      var acked, claimed := Ack(s, sink, id, now).notes[id], ClaimAll(s, [id], sink, now).notes[id];
      var recovered := Recover(s, now, staleAfter).notes[id];
      && acked.sinks == note.sinks[sink := SinkState(Acked, None, Some(now))] && acked.notice == note.notice
      && claimed.sinks == note.sinks[sink := SinkState(Claimed, Some(now), st.ackedAt)] && claimed.notice == note.notice
      && recovered.notice == note.notice && recovered.sinks.Keys == note.sinks.Keys
      && recovered.sinks[sink] ==
         (if st.status == Claimed && st.claimedAt.Some? && st.claimedAt.value < now - staleAfter
          then SinkState(Pending, None, st.ackedAt) else st)
  {
  }
}
