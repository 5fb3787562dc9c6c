/** The notification manager over its store, as an object. */
module NotificationObjects {
  import opened Wrappers
  import opened Listings
  import opened Notifications

  lemma {:induction false} SelectOfSum(a: seq<Id>, b: seq<Id>, keep: set<Id>)
    ensures Select(a + b, keep) == Select(a, keep) + Select(b, keep)
  {
    if a == [] {
      assert a + b == b;
    } else {
      SelectOfSum(a[1..], b, keep);
      assert (a + b)[1..] == a[1..] + b;
    }
  }

  /** Listing one more id selects it or not, and what is selected so far begins the whole selection. */
  lemma SelectOneMore(ids: seq<Id>, i: nat, keep: set<Id>)
    requires i < |ids|
    ensures Select(ids[..i + 1], keep) == Select(ids[..i], keep) + if ids[i] in keep then [ids[i]] else []
    ensures Select(ids[..i + 1], keep) <= Select(ids, keep)
  {
    assert ids[..i + 1] == ids[..i] + [ids[i]] && ids == ids[..i + 1] + ids[i + 1..];
    SelectOfSum(ids[..i], [ids[i]], keep);
    SelectOfSum(ids[..i + 1], ids[i + 1..], keep);
  }

  lemma ClaimingNothing(s: Store, sink: Sink, now: int)
    ensures ClaimAll(s, [], sink, now) == s
  {
    assert ClaimAll(s, [], sink, now).notes == s.notes;
  }

  lemma ClaimingOneMore(s: Store, ids: seq<Id>, id: Id, sink: Sink, now: int)
    requires id in s.notes && id !in ids
    ensures ClaimAll(s, ids, sink, now).notes[id] == s.notes[id]
    ensures HasSink(s, id, sink) ==>
              ClaimAll(s, ids + [id], sink, now).notes ==
              ClaimAll(s, ids, sink, now).notes[id := ClaimNote(s.notes[id], sink, now)]
  {
  }

  /** The notifications after recovery has gone through some of the listed ones. */
  function RecoverAll(notes: map<Id, Note>, ids: seq<Id>, now: int, staleAfter: nat): map<Id, Note> {
    map id | id in notes :: if id in ids then RecoverNote(notes[id], now, staleAfter) else notes[id]
  }

  /** The next listed notification is stored and has not come up before. */
  lemma ListedNext(s: Store, i: nat)
    requires Valid(s) && i < |ListViews(s)|
    ensures ListViews(s)[i] in s.notes && ListViews(s)[i] !in ListViews(s)[..i]
    ensures ListViews(s)[..i + 1] == ListViews(s)[..i] + [ListViews(s)[i]]
  {
    SortKeepsElements(s.order, CreationTimes(s));
    assert ListViews(s)[i] in ListViews(s);
  }

  lemma RecoveringOneMore(s: Store, i: nat, now: int, staleAfter: nat)
    requires Valid(s) && i < |ListViews(s)|
    ensures var id, done := ListViews(s)[i], ListViews(s)[..i];
      var notes := RecoverAll(s.notes, done, now, staleAfter);
      && id in s.notes && notes[id] == s.notes[id]
      && RecoverAll(s.notes, ListViews(s)[..i + 1], now, staleAfter) ==
         notes[id := RecoverNote(s.notes[id], now, staleAfter)]
  {
    ListedNext(s, i);
    RecoveringNext(s.notes, ListViews(s)[..i], ListViews(s)[i], now, staleAfter);
  }

  lemma RecoveringNext(notes: map<Id, Note>, ids: seq<Id>, id: Id, now: int, staleAfter: nat)
    ensures id in notes && id !in ids ==>
              && RecoverAll(notes, ids, now, staleAfter)[id] == notes[id]
              && RecoverAll(notes, ids + [id], now, staleAfter) ==
                 RecoverAll(notes, ids, now, staleAfter)[id := RecoverNote(notes[id], now, staleAfter)]
  {
  }

  /** The whole listing recovers every notification, and none of it recovers nothing. */
  lemma RecoveringListed(s: Store, now: int, staleAfter: nat)
    requires Valid(s)
    ensures RecoverAll(s.notes, ListViews(s)[..0], now, staleAfter) == s.notes
    ensures RecoverAll(s.notes, ListViews(s), now, staleAfter) == Recover(s, now, staleAfter).notes
  {
    SortKeepsElements(s.order, CreationTimes(s));
  }

  /** One turn of the claiming loop: the next notification is pending and claimed, or it is passed over. */
  lemma ClaimTurn(s: Store, i: nat, sink: Sink, now: int)
    requires Valid(s) && i < |OldestFirst(s)|
    ensures var views, keep := OldestFirst(s), PendingSet(s, sink);
      var claimed, id := Select(views[..i], keep), views[i];
      && id in s.notes && ClaimAll(s, claimed, sink, now).notes[id] == s.notes[id]
      && (id in keep ==>
            && Select(views[..i + 1], keep) == claimed + [id]
            && ClaimAll(s, claimed + [id], sink, now).notes ==
               ClaimAll(s, claimed, sink, now).notes[id := ClaimNote(s.notes[id], sink, now)])
      && (id !in keep ==> Select(views[..i + 1], keep) == claimed)
      && Select(views[..i + 1], keep) <= Due(s, sink)
  {
    var views, keep := OldestFirst(s), PendingSet(s, sink);
    OldestFirstProperties(s);
    SelectOneMore(views, i, keep);
    assert views[i] !in views[..i];
    ClaimingOneMore(s, Select(views[..i], keep), views[i], sink, now);
  }

  lemma AckingNothing(s: Store, sink: Sink, ackedAt: Id -> int)
    ensures AckAll(s, sink, {}, ackedAt) == s
  {
    assert AckAll(s, sink, {}, ackedAt).notes == s.notes;
  }

  lemma AckingOneMore(s: Store, sink: Sink, ids: set<Id>, id: Id, ackedAt: Id -> int)
    requires id !in ids
    ensures AckAll(s, sink, ids + {id}, ackedAt) == Ack(AckAll(s, sink, ids, ackedAt), sink, id, ackedAt(id))
  {
    assert AckAll(s, sink, ids + {id}, ackedAt).notes == Ack(AckAll(s, sink, ids, ackedAt), sink, id, ackedAt(id)).notes;
  }

  /** A batch ends with the claim that reaches the limit, or with the last one due. */
  lemma BatchIsPrefix(due: seq<Id>, claimed: seq<Id>, limit: int)
    requires claimed <= due
    requires (claimed == due && (due == [] || |due| < limit))
          || (claimed != [] && |claimed| >= limit && (|claimed| == 1 || |claimed| - 1 < limit))
    ensures claimed == due[..BatchSize(limit, |due|)]
  {
  }

  class NotificationManager {
    var order: seq<Id>
    var notes: map<Id, Note>
    const staleAfter: nat

    constructor (staleAfter: nat)
      ensures this.staleAfter == staleAfter && Contents() == Store([], map[])
    {
      order, notes := [], map[];
      this.staleAfter := staleAfter;
    }

    function Contents(): Store
      reads this
    {
      Store(order, notes)
    }

    method FindExisting(key: string) returns (found: Option<Id>)
      requires Valid(Contents())
      ensures found == FindByDedupeKey(Contents(), key)
    {
      var views := ListViews(Contents());
      for i := 0 to |views|
        invariant FindIn(Contents(), views, key) == FindIn(Contents(), views[i..], key)
      {
        assert views[i..][1..] == views[i + 1..];
        if views[i] in notes && notes[views[i]].notice.dedupeKey == Some(key) {
          return Some(views[i]);
        }
      }
      return None;
    }

    method PublishNotice(n: Notice, at: nat) returns (id: Id)
      requires Valid(Contents()) && at <= |order|
      modifies this
      ensures (Contents(), id) == Publish(old(Contents()), n, at)
    {
      if n.dedupeKey.Some? && n.dedupeKey.value != "" {
        var existing := FindExisting(n.dedupeKey.value);
        if existing.Some? {
          return existing.value;
        }
      }
      order := order[..at] + [n.id] + order[at..];
      notes := notes[n.id := Note(n, map sink | sink in n.targets :: FRESH)];
      return n.id;
    }

    /** The inner loop of `recover`: gives up the stale claims of one notification. */
    method RecoverSinks(n: Note, now: int) returns (recovered: Note, updated: bool)
      ensures recovered == RecoverNote(n, now, staleAfter)
      ensures updated <==> recovered != n
    {
      var sinks := n.sinks;
      var rest := sinks.Keys;
      updated := false;
      while rest != {}
        invariant rest <= n.sinks.Keys && sinks.Keys == n.sinks.Keys
        invariant forall sink | sink in n.sinks :: sinks[sink] ==
                    if sink in rest then n.sinks[sink] else RecoverSink(n.sinks[sink], now, staleAfter)
        invariant updated <==> exists sink :: sink in n.sinks && sinks[sink] != n.sinks[sink]
        decreases |rest|
      {
        var sink :| sink in rest;
        var st := n.sinks[sink];
        if st.status == Claimed && st.claimedAt.Some? && now - st.claimedAt.value > staleAfter {
          sinks := sinks[sink := st.(status := Pending, claimedAt := None)];
          updated := true;
          assert sinks[sink] != n.sinks[sink];
        }
        rest := rest - {sink};
      }
      recovered := Note(n.notice, sinks);
      assert recovered.sinks == RecoverNote(n, now, staleAfter).sinks;
    }

    /** The turn of `recover` for one listed notification. */
    method RecoverOne(id: Id, now: int)
      requires id in notes
      modifies this`notes
      ensures notes == old(notes)[id := RecoverNote(old(notes)[id], now, staleAfter)]
    {
      var recovered, updated := RecoverSinks(notes[id], now);
      if updated {
        notes := notes[id := recovered];
      } else {
        assert notes[id := notes[id]] == notes;
      }
    }

    method RecoverStale(now: int)
      requires Valid(Contents())
      modifies this`notes
      ensures Contents() == Recover(old(Contents()), now, staleAfter)
    {
      var views := ListViews(Contents());
      ghost var before := Contents();
      RecoveringListed(before, now, staleAfter);
      for i := 0 to |views|
        invariant order == before.order && notes == RecoverAll(before.notes, views[..i], now, staleAfter)
      {
        RecoveringOneMore(before, i, now, staleAfter);
        RecoverOne(views[i], now);
      }
      assert views[..|views|] == views;
    }

    method WriteClaim(id: Id, sink: Sink, now: int)
      requires HasSink(Contents(), id, sink)
      modifies this`notes
      ensures notes == old(notes)[id := ClaimNote(old(notes)[id], sink, now)]
    {
      var n := notes[id];
      notes := notes[id := n.(sinks := n.sinks[sink := n.sinks[sink].(status := Claimed, claimedAt := Some(now))])];
    }

    /** One turn of the loop of `claim_for_sink`, which has claimed from the first `i` views so far. */
    method ClaimNext(ghost before: Store, views: seq<Id>, i: nat, claimed: seq<Id>, sink: Sink, now: int)
      returns (more: seq<Id>)
      requires Valid(before) && views == OldestFirst(before) && i < |views|
      requires claimed == Select(views[..i], PendingSet(before, sink))
      requires Contents() == ClaimAll(before, claimed, sink, now)
      modifies this`notes
      ensures more == Select(views[..i + 1], PendingSet(before, sink)) && more <= Due(before, sink)
      ensures more == claimed || |more| == |claimed| + 1
      ensures Contents() == ClaimAll(before, more, sink, now)
    {
      var id := views[i];
      more := claimed;
      ClaimTurn(before, i, sink, now);
      if sink in notes[id].sinks && notes[id].sinks[sink].status == Pending {
        WriteClaim(id, sink, now);
        more := claimed + [id];
      }
    }

    /** The loop of `claim_for_sink`. */
    method ClaimPending(sink: Sink, limit: int, now: int) returns (claimed: seq<Id>)
      requires Valid(Contents())
      modifies this`notes
      ensures claimed == Claims(old(Contents()), sink, limit)
      ensures Contents() == ClaimAll(old(Contents()), claimed, sink, now)
    {
      ghost var before := Contents();
      var views := OldestFirst(Contents());
      claimed := [];
      ClaimingNothing(before, sink, now);
      for i := 0 to |views|
        invariant Contents() == ClaimAll(before, claimed, sink, now)
        invariant claimed == Select(views[..i], PendingSet(before, sink))
        invariant claimed == [] || |claimed| < limit
      {
        var more := ClaimNext(before, views, i, claimed, sink, now);
        var took := |more| > |claimed|;
        claimed := more;
        if took && |claimed| >= limit {
          BatchIsPrefix(Due(before, sink), claimed, limit);
          return;
        }
      }
      assert views[..|views|] == views;
      BatchIsPrefix(Due(before, sink), claimed, limit);
    }

    method Claim(sink: Sink, limit: int, recoveredAt: int, now: int) returns (claimed: seq<Id>)
      requires Valid(Contents())
      modifies this`notes
      ensures (Contents(), claimed) == ClaimForSink(old(Contents()), sink, limit, recoveredAt, now, staleAfter)
    {
      RecoverIsValid(Contents(), recoveredAt, staleAfter);
      RecoverStale(recoveredAt);
      claimed := ClaimPending(sink, limit, now);
    }

    method Acknowledge(sink: Sink, id: Id, now: int)
      modifies this`notes
      ensures Contents() == Ack(old(Contents()), sink, id, now)
    {
      if id in notes && sink in notes[id].sinks {
        var n := notes[id];
        notes := notes[id := n.(sinks := n.sinks[sink := SinkState(Acked, None, Some(now))])];
      } else if id in notes {
        assert notes[id := notes[id]] == notes;
      }
    }

    /** The loop of `deliver_pending`; the handlers of the notifications in `failing` raise. */
    method HandleAll(sink: Sink, ids: seq<Id>, failing: set<Id>, ackedAt: Id -> int) returns (delivered: seq<Id>)
      requires Distinct(ids)
      modifies this`notes
      ensures Contents() == AckAll(old(Contents()), sink, Elements(ids) - failing, ackedAt)
      ensures delivered == Select(ids, Elements(ids) - failing)
    {
      ghost var before, handled := Contents(), Elements(ids) - failing;
      ghost var acked: set<Id> := {};
      delivered := [];
      AckingNothing(before, sink, ackedAt);
      for i := 0 to |ids|
        invariant Contents() == AckAll(before, sink, acked, ackedAt)
        invariant delivered == Select(ids[..i], handled)
        invariant forall id :: id in acked <==> id in ids[..i] && id in handled
      {
        SelectOneMore(ids, i, handled);
        if ids[i] !in failing {
          AckingOneMore(before, sink, acked, ids[i], ackedAt);
          Acknowledge(sink, ids[i], ackedAt(ids[i]));
          delivered := delivered + [ids[i]];
          acked := acked + {ids[i]};
        }
      }
      assert ids[..|ids|] == ids;
      assert acked == handled;
    }

    method DeliverPending(sink: Sink, limit: int, failing: set<Id>, clock: Clock) returns (delivered: seq<Id>)
      requires Valid(Contents())
      modifies this`notes
      ensures (Contents(), delivered) == Deliver(old(Contents()), sink, limit, failing, clock, staleAfter)
    {
      ClaimTakesTheOldest(Contents(), sink, limit, clock.recoveredAt, clock.now, staleAfter);
      var ids := Claim(sink, limit, clock.recoveredAt, clock.now);
      delivered := HandleAll(sink, ids, failing, clock.ackedAt);
    }
  }
}
