/** The approval runtime and the approvals that share it, as objects. */
module ApprovalObjects {
  import opened Wrappers
  import opened ApprovalProtocol
  import opened SessionApproval

  class ApprovalRuntime {
    var requests: map<Id, Request>
    var order: seq<Id>
    var waiters: map<Id, nat>
    var waiterCounts: map<Id, nat>
    var futures: seq<Future>
    var waits: map<Observer, Wait>
    var outcomes: map<Observer, Ended>
    ghost var trace: Trace

    ghost function Contents(): State
      reads this
    {
      State(requests, order, waiters, waiterCounts, futures, waits, outcomes)
    }

    constructor ()
      ensures Contents() == INITIAL && trace == []
    {
      requests, order, waiters, waiterCounts := map[], [], map[], map[];
      futures, waits, outcomes, trace := [], map[], map[], [];
    }

    method CreateRequest(id: Id, action: string, source: Source, now: int)
      requires id !in requests
      modifies this
      ensures Contents() == Create(old(Contents()), id, action, source, now) && trace == old(trace)
    {
      requests := requests[id := Request(action, source, now, Pending, None, "", false)];
      order := order + [id];
    }

    /** `wait_for_response` up to the point where the observer returns or is suspended. */
    method BeginWaitForResponse(o: Observer, id: Id, timed: bool) returns (found: bool)
      modifies this
      ensures found <==> id in old(requests)
      ensures !found ==> Contents() == old(Contents())
      ensures found ==> Contents() == BeginWait(old(Contents()), o, id, timed)
      ensures trace == old(trace)
    {
      if id !in requests {
        return false;
      }
      var request := requests[id];
      if id !in waiters {
        if request.status != Pending {
          outcomes := outcomes[o := Ended(id, timed, OutcomeOf(Expected(request)))];
          return true;
        }
        waiters := waiters[id := |futures|];
        futures := futures + [Future(id, Unset)];
      }
      assert waiters == waiters[id := waiters[id]];
      waiterCounts := waiterCounts[id := (if id in waiterCounts then waiterCounts[id] else 0) + 1];
      waits := waits[o := Wait(id, waiters[id], timed)];
      return true;
    }

    /** Stores the settled record, unregisters its future and completes it unless that happened already. */
    method SettleRequest(id: Id, r: Request)
      requires id in requests
      modifies this`requests, this`waiters, this`futures
      ensures Contents() == Settle(old(Contents()), id, r)
    {
      requests := requests[id := r];
      if id in waiters {
        var waiter := waiters[id];
        waiters := waiters - {id};
        if waiter < |futures| && futures[waiter].state == Unset {
          futures := futures[waiter := Future(futures[waiter].owner, Expected(r))];
        }
      } else {
        assert waiters - {id} == waiters;
      }
    }

    method Resolve(id: Id, response: Response, feedback: string, viaCache: bool) returns (resolved: bool)
      modifies this
      ensures (Contents(), trace) == ResolveTraced(old(Contents()), old(trace), id, response, feedback, viaCache)
      ensures resolved <==> IsPending(old(Contents()), id)
    {
      if id !in requests || requests[id].status != Pending {
        return false;
      }
      trace := trace + [Resolution(id, requests[id].action, response, viaCache)];
      SettleRequest(id,
        requests[id].(status := Resolved, response := Some(response), feedback := feedback, viaCache := viaCache));
      return true;
    }

    method CancelPending(id: Id, feedback: string)
      modifies this
      ensures Contents() == CancelRequest(old(Contents()), id, feedback) && trace == old(trace)
    {
      if id in requests && requests[id].status == Pending {
        SettleRequest(id, requests[id].(status := Cancelled, response := Some(Reject), feedback := feedback));
      }
    }

    /** `cancel_by_source`, which tells how many requests it cancelled. */
    method CancelFromSource(source: Source) returns (cancelled: nat)
      modifies this
      ensures Contents() == CancelBySource(old(Contents()), source) && trace == old(trace)
      ensures Inv(old(Contents())) ==> cancelled == |PendingFrom(old(Contents()), source)|
    {
      cancelled := 0;
      var ids := order;
      ghost var before := Contents();
      for i := 0 to |ids|
        invariant Contents() == CancelAllFrom(before, ids[..i], source) && trace == old(trace)
        invariant cancelled + |PendingFrom(Contents(), source)| == |PendingFrom(before, source)|
      {
        assert ids[..i + 1][..i] == ids[..i];
        CancelOneLeaves(Contents(), ids[i], source);
        if ids[i] in requests && requests[ids[i]].status == Pending && requests[ids[i]].source == source {
          assert ids[i] in PendingFrom(Contents(), source);
          SettleRequest(ids[i], requests[ids[i]].(status := Cancelled, response := Some(Reject)));
          cancelled := cancelled + 1;
        }
      }
      assert ids[..|ids|] == ids;
      CancelAllLeaves(before, ids, source);
      assert Inv(before) ==> PendingFrom(Contents(), source) == {};
    }

    /** The cleanup that runs however a suspended observer is left. */
    method EndWaiting(o: Observer, outcome: Outcome)
      requires o in waits && waits[o].request in requests
      modifies this
      ensures Contents() == EndWait(old(Contents()), o, outcome) && trace == old(trace)
    {
      var id, waiter := waits[o].request, waits[o].future;
      var count: int := if id in waiterCounts then waiterCounts[id] else 0;
      var remaining := count - 1;
      if remaining > 0 {
        waiterCounts := waiterCounts[id := remaining];
      } else {
        waiterCounts := waiterCounts - {id};
        if requests[id].status == Pending && id in waiters && waiters[id] == waiter {
          waiters := waiters - {id};
        }
      }
      outcomes := outcomes[o := Ended(id, waits[o].timed, outcome)];
      waits := waits - {o};
    }

    method TimeOutWaiting(o: Observer)
      requires o in waits && waits[o].request in requests
      modifies this
      ensures Contents() == TimeOut(old(Contents()), o) && trace == old(trace)
    {
      var id := waits[o].request;
      if (if id in waiterCounts then waiterCounts[id] else 0) <= 1 {
        waiters := waiters - {id};
      }
      CancelPending(id, "approval timed out");
      EndWaiting(o, TimedOut);
    }

    /** The loop of an approval for the session over the requests that were pending when it began. */
    method ApproveAll(ids: seq<Id>, action: string)
      modifies this
      ensures (Contents(), trace) == Cascade(old(Contents()), old(trace), ids, action)
    {
      for i := 0 to |ids|
        invariant (Contents(), trace) == Cascade(old(Contents()), old(trace), ids[..i], action)
      {
        assert ids[..i + 1][..i] == ids[..i];
        if ids[i] in requests && requests[ids[i]].action == action {
          var _ := Resolve(ids[i], Approve, "", true);
        }
      }
      assert ids[..|ids|] == ids;
    }
  }

  class ApprovalState {
    var yolo: bool
    var afk: bool
    var runtimeAfk: bool
    var autoApproveActions: set<string>

    constructor (yolo: bool, afk: bool, runtimeAfk: bool, saved: set<string>)
      ensures this.yolo == yolo && this.afk == afk && this.runtimeAfk == runtimeAfk && autoApproveActions == saved
    {
      this.yolo, this.afk, this.runtimeAfk, autoApproveActions := yolo, afk, runtimeAfk, saved;
    }
  }

  class Approval {
    const state: ApprovalState
    const runtime: ApprovalRuntime

    constructor (state: ApprovalState, runtime: ApprovalRuntime)
      ensures this.state == state && this.runtime == runtime
    {
      this.state, this.runtime := state, runtime;
    }

    method Share() returns (shared: Approval)
      ensures fresh(shared) && shared.state == state && shared.runtime == runtime
    {
      shared := new Approval(state, runtime);
    }

    /** The session as this approval, and every approval shared with it, sees it. */
    ghost function Seen(asks: map<Observer, Ask>, answers: map<Observer, Answer>): Session
      reads state, runtime
    {
      Session(runtime.Contents(), runtime.trace, state.yolo, state.afk, state.runtimeAfk, state.autoApproveActions, asks, answers)
    }

    method SetAfkMode(on: bool)
      modifies state
      ensures Seen(map[], map[]) == Proceed(old(Seen(map[], map[])), SetAfk(on))
    {
      state.afk := on;
      if !on {
        state.runtimeAfk := false;
      }
    }

    /** `request` up to its answer or its suspension. */
    method BeginRequest(o: Observer, id: Id, action: string, source: Source, now: int) returns (answer: Option<Answer>)
      requires id !in runtime.requests
      modifies runtime
      ensures var begun := Begin(old(Seen(map[], map[])), o, id, action, source, now);
        && Seen(begun.asks, begun.answers) == begun
        && answer == (if o in begun.answers then Some(begun.answers[o]) else None)
      ensures answer == Some(GrantedByMode) <==> old(state.yolo || state.afk || state.runtimeAfk)
      ensures answer.None? ==> id in runtime.requests && runtime.requests[id].status == Pending
    {
      if state.yolo || state.afk || state.runtimeAfk {
        return Some(GrantedByMode);
      }
      if action in state.autoApproveActions {
        return Some(GrantedByCache(action));
      }
      runtime.CreateRequest(id, action, source, now);
      var _ := runtime.BeginWaitForResponse(o, id, false);
      return None;
    }

    /** `request` after its caller was resumed by a done future. */
    method FinishRequest(o: Observer, id: Id, action: string) returns (answer: Answer)
      requires Enabled(runtime.Contents(), DoWake(o))
      modifies runtime, state
      ensures var before := old(Seen(map[o := Ask(id, action)], map[]));
        Seen(map[], map[o := answer]) == Finish(before, o)
    {
      var future := runtime.futures[runtime.waits[o].future].state;
      runtime.EndWaiting(o, OutcomeOf(future));
      ghost var asks := map[o := Ask(id, action)];
      assert asks - {o} == map[];
      if future.Value? {
        match future.response
        case Approve => answer := GrantedByResponse(id);
        case ApproveForSession =>
          state.autoApproveActions := state.autoApproveActions + {action};
          runtime.ApproveAll(ListPending(State(runtime.requests, runtime.order, runtime.waiters, runtime.waiterCounts,
                                               runtime.futures, runtime.waits, runtime.outcomes)), action);
          answer := GrantedByResponse(id);
        case Reject => answer := Denied(id, future.feedback);
      } else {
        answer := Denied(id, if id in runtime.requests then runtime.requests[id].feedback else "");
      }
    }
  }
}
