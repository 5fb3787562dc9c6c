/**
 The approval runtime as a protocol. Observers wait on one future per request; each step below is what runs
 between two suspension points. `waits` holds the observers that are suspended, `outcomes` what the others got.
 */
module ApprovalProtocol {
  import opened Wrappers

  type Id = string
  type Observer = nat

  datatype Status = Pending | Resolved | Cancelled
  datatype Response = Approve | ApproveForSession | Reject
  datatype SourceKind = ForegroundTurn | BackgroundAgent
  datatype Source = Source(kind: SourceKind, id: string)

  datatype Request = Request(
    action: string,
    source: Source,
    createdAt: int,
    status: Status,
    response: Option<Response>,
    feedback: string,
    viaCache: bool)

  datatype FutureState = Unset | Value(response: Response, feedback: string) | CancelledError
  datatype Future = Future(owner: Id, state: FutureState)

  datatype Wait = Wait(request: Id, future: nat, timed: bool)

  /** `TimedOut` also raises the cancellation error; `Left` is an observer whose own task was cancelled. */
  datatype Outcome = Responded(response: Response, feedback: string) | WasCancelled | TimedOut | Left

  datatype Ended = Ended(request: Id, timed: bool, outcome: Outcome)

  /** `order` is the insertion order of the request dictionary. */
  datatype State = State(
    requests: map<Id, Request>,
    order: seq<Id>,
    waiters: map<Id, nat>,
    counts: map<Id, nat>,
    futures: seq<Future>,
    waits: map<Observer, Wait>,
    outcomes: map<Observer, Ended>)

  const INITIAL := State(map[], [], map[], map[], [], map[], map[])

  function Count(s: State, id: Id): nat {
    if id in s.counts then s.counts[id] else 0
  }

  // ---------------------------------------------------------------- steps

  function Create(s: State, id: Id, action: string, source: Source, now: int): State {
    s.(requests := s.requests[id := Request(action, source, now, Pending, None, "", false)],
       order := s.order + [id])
  }

  /** What the future of a request that is no longer pending holds. */
  function Expected(r: Request): FutureState {
    if r.status == Resolved && r.response.Some? then Value(r.response.value, r.feedback) else CancelledError
  }

  function OutcomeOf(f: FutureState): Outcome {
    if f.Value? then Responded(f.response, f.feedback) else WasCancelled
  }

  /** An observer of an existing request returns at once, or joins the shared future and is suspended. */
  function BeginWait(s: State, o: Observer, id: Id, timed: bool): State
    requires id in s.requests
  {
    if id !in s.waiters && s.requests[id].status != Pending then
      s.(outcomes := s.outcomes[o := Ended(id, timed, OutcomeOf(Expected(s.requests[id])))])
    else
      var future := if id in s.waiters then s.waiters[id] else |s.futures|;
      s.(waiters := s.waiters[id := future],
         futures := if id in s.waiters then s.futures else s.futures + [Future(id, Unset)],
         counts := s.counts[id := Count(s, id) + 1],
         waits := s.waits[o := Wait(id, future, timed)])
  }

  /** Writes the record of a pending request and completes its future, if one is registered. */
  function Settle(s: State, id: Id, r: Request): State
    requires id in s.requests
  {
    s.(requests := s.requests[id := r],
       waiters := s.waiters - {id},
       futures :=
         if id in s.waiters && s.waiters[id] < |s.futures| && s.futures[s.waiters[id]].state.Unset?
         then s.futures[s.waiters[id] := Future(s.futures[s.waiters[id]].owner, Expected(r))]
         else s.futures)
  }

  predicate IsPending(s: State, id: Id) {
    id in s.requests && s.requests[id].status == Pending
  }

  function Resolve(s: State, id: Id, response: Response, feedback: string, viaCache: bool): State {
    if !IsPending(s, id) then s
    else Settle(s, id, s.requests[id].(status := Resolved, response := Some(response), feedback := feedback, viaCache := viaCache))
  }

  function CancelRequest(s: State, id: Id, feedback: string): State {
    if !IsPending(s, id) then s
    else Settle(s, id, s.requests[id].(status := Cancelled, response := Some(Reject), feedback := feedback))
  }

  function CancelIfFrom(s: State, id: Id, source: Source): State {
    if !IsPending(s, id) || s.requests[id].source != source then s
    else Settle(s, id, s.requests[id].(status := Cancelled, response := Some(Reject)))
  }

  function CancelAllFrom(s: State, ids: seq<Id>, source: Source): State {
    if ids == [] then s
    else CancelIfFrom(CancelAllFrom(s, ids[..|ids| - 1], source), ids[|ids| - 1], source)
  }

  function CancelBySource(s: State, source: Source): State {
    CancelAllFrom(s, s.order, source)
  }

  /** The requests that a cancellation by source concerns. */
  function PendingFrom(s: State, source: Source): set<Id> {
    set id | id in s.requests && s.requests[id].status == Pending && s.requests[id].source == source
  }

  /** The cleanup of an observer that was suspended. */
  function EndWait(s: State, o: Observer, outcome: Outcome): State
    requires o in s.waits && s.waits[o].request in s.requests
  {
    var id, future := s.waits[o].request, s.waits[o].future;
    var remaining := Count(s, id) - 1;
    s.(counts := if remaining > 0 then s.counts[id := remaining] else s.counts - {id},
       waiters :=
         if remaining <= 0 && IsPending(s, id) && id in s.waiters && s.waiters[id] == future
         then s.waiters - {id} else s.waiters,
       waits := s.waits - {o},
       outcomes := s.outcomes[o := Ended(id, s.waits[o].timed, outcome)])
  }

  /** A timeout drops a future nobody else observes before it cancels the request. */
  function TimeOut(s: State, o: Observer): State
    requires o in s.waits && s.waits[o].request in s.requests
  {
    var id := s.waits[o].request;
    var dropped := if Count(s, id) <= 1 then s.(waiters := s.waiters - {id}) else s;
    EndWait(CancelRequest(dropped, id, "approval timed out"), o, TimedOut)
  }

  datatype Event =
    | DoCreate(id: Id, action: string, source: Source, now: int)
    | DoWait(observer: Observer, id: Id, timed: bool)
    | DoResolve(id: Id, response: Response, feedback: string, viaCache: bool)
    | DoCancelBySource(source: Source)
    | DoWake(observer: Observer)
    | DoTimeOut(observer: Observer)
    | DoLeave(observer: Observer)

  /** Which steps the event loop can take: new ids and observers are fresh, only a done future wakes. */
  predicate Enabled(s: State, e: Event) {
    match e
    case DoCreate(id, _, _, _) => id !in s.requests
    case DoWait(o, id, _) => id in s.requests && o !in s.waits && o !in s.outcomes
    case DoResolve(_, _, _, _) => true
    case DoCancelBySource(_) => true
    case DoWake(o) => o in s.waits && s.waits[o].request in s.requests
                   && s.waits[o].future < |s.futures| && !s.futures[s.waits[o].future].state.Unset?
    case DoTimeOut(o) => o in s.waits && s.waits[o].request in s.requests && s.waits[o].timed
    case DoLeave(o) => o in s.waits && s.waits[o].request in s.requests
  }

  function Next(s: State, e: Event): State
    requires Enabled(s, e)
  {
    match e
    case DoCreate(id, action, source, now) => Create(s, id, action, source, now)
    case DoWait(o, id, timed) => BeginWait(s, o, id, timed)
    case DoResolve(id, response, feedback, viaCache) => Resolve(s, id, response, feedback, viaCache)
    case DoCancelBySource(source) => CancelBySource(s, source)
    case DoWake(o) => EndWait(s, o, OutcomeOf(s.futures[s.waits[o].future].state))
    case DoTimeOut(o) => TimeOut(s, o)
    case DoLeave(o) => EndWait(s, o, Left)
  }

  // ---------------------------------------------------------------- the invariant

  ghost function Observers(waits: map<Observer, Wait>, id: Id): set<Observer> {
    set o | o in waits && waits[o].request == id
  }

  /** A future is registered exactly for pending requests with an observer, and is not done. */
  ghost predicate WaitersFit(s: State) {
    && (forall id :: id in s.waiters <==> IsPending(s, id) && Count(s, id) > 0)
    && (forall id | id in s.waiters ::
          s.waiters[id] < |s.futures| && s.futures[s.waiters[id]] == Future(id, Unset))
  }

  /** The count of a request is the number of its suspended observers, and no entry stays at zero. */
  ghost predicate CountsFit(s: State) {
    AllCountsFit(s.counts, s.waits)
  }

  ghost predicate AllCountsFit(counts: map<Id, nat>, waits: map<Observer, Wait>) {
    forall id :: CountFits(counts, waits, id)
  }

  ghost predicate CountFits(counts: map<Id, nat>, waits: map<Observer, Wait>, id: Id) {
    var n := |Observers(waits, id)|;
    if n == 0 then id !in counts else id in counts && counts[id] == n
  }

  /** A suspended observer shares the registered future, or its future holds the outcome of the record. */
  ghost predicate WaitsFit(s: State) {
    forall o | o in s.waits ::
      && s.waits[o].request in s.requests && s.waits[o].future < |s.futures|
      && s.futures[s.waits[o].future].owner == s.waits[o].request
      && (if IsPending(s, s.waits[o].request)
          then s.waits[o].request in s.waiters && s.waiters[s.waits[o].request] == s.waits[o].future
          else s.futures[s.waits[o].future].state == Expected(s.requests[s.waits[o].request]))
  }

  ghost predicate RecordsFit(s: State) {
    && (forall id :: id in s.requests <==> id in s.order)
    && (forall id | id in s.requests && s.requests[id].status == Resolved :: s.requests[id].response.Some?)
  }

  /** An observer that did not time out and was not cancelled itself got exactly the outcome of the record. */
  ghost predicate OutcomesFit(s: State) {
    forall o | o in s.outcomes ::
      var e := s.outcomes[o];
      && e.request in s.requests
      && (e.outcome != Left ==> !IsPending(s, e.request))
      && (e.outcome == TimedOut ==> e.timed)
      && (e.outcome != Left && e.outcome != TimedOut ==> e.outcome == OutcomeOf(Expected(s.requests[e.request])))
  }

  ghost predicate Inv(s: State) {
    WaitersFit(s) && CountsFit(s) && WaitsFit(s) && RecordsFit(s) && OutcomesFit(s)
  }

  /** A record that has left pending is never written again. */
  ghost predicate KeepsSettled(s: State, t: State) {
    forall id | id in s.requests && s.requests[id].status != Pending :: id in t.requests && t.requests[id] == s.requests[id]
  }

  lemma InitialInv()
    ensures Inv(INITIAL)
  {
  }

  lemma ObserversWithMore(waits: map<Observer, Wait>, o: Observer, w: Wait, id: Id)
    requires o !in waits
    ensures Observers(waits[o := w], id) == if w.request == id then Observers(waits, id) + {o} else Observers(waits, id)
    ensures |Observers(waits[o := w], id)| == |Observers(waits, id)| + if w.request == id then 1 else 0
  {
    assert Observers(waits[o := w], id) == if w.request == id then Observers(waits, id) + {o} else Observers(waits, id);
  }

  lemma ObserversWithout(waits: map<Observer, Wait>, o: Observer, id: Id)
    requires o in waits
    ensures Observers(waits - {o}, id) == Observers(waits, id) - {o}
    ensures |Observers(waits - {o}, id)| == |Observers(waits, id)| - if waits[o].request == id then 1 else 0
    ensures waits[o].request == id <==> o in Observers(waits, id)
  {
    assert Observers(waits - {o}, id) == Observers(waits, id) - {o};
    if waits[o].request != id {
      assert Observers(waits, id) - {o} == Observers(waits, id);
    }
  }

  /** A suspended observer is counted, and one that is not counted is alone. */
  lemma ObserverIsCounted(s: State, o: Observer)
    requires CountsFit(s) && o in s.waits
    ensures s.waits[o].request in s.counts && s.counts[s.waits[o].request] > 0
  {
    assert CountFits(s.counts, s.waits, s.waits[o].request);
    assert o in Observers(s.waits, s.waits[o].request);
  }

  lemma OneObserver(s: State, o: Observer, p: Observer)
    requires CountsFit(s) && o in s.waits && p in s.waits && s.waits[p].request == s.waits[o].request
    ensures p != o ==> Count(s, s.waits[o].request) > 1
  {
    var id := s.waits[o].request;
    assert CountFits(s.counts, s.waits, id);
    if p != o {
      assert {o, p} <= Observers(s.waits, id);
      assert Observers(s.waits, id) == {o, p} + (Observers(s.waits, id) - {o, p});
    }
  }

  lemma CountsWithMore(s: State, o: Observer, w: Wait)
    requires CountsFit(s) && o !in s.waits
    ensures AllCountsFit(s.counts[w.request := Count(s, w.request) + 1], s.waits[o := w])
  {
    var counts, waits := s.counts[w.request := Count(s, w.request) + 1], s.waits[o := w];
    forall x ensures CountFits(counts, waits, x) {
      assert CountFits(s.counts, s.waits, x);
      ObserversWithMore(s.waits, o, w, x);
    }
  }

  function CountsAfter(s: State, id: Id): map<Id, nat> {
    if Count(s, id) > 1 then s.counts[id := Count(s, id) - 1] else s.counts - {id}
  }

  lemma CountsWithout(s: State, o: Observer)
    requires CountsFit(s) && o in s.waits
    ensures AllCountsFit(CountsAfter(s, s.waits[o].request), s.waits - {o})
  {
    var counts, waits := CountsAfter(s, s.waits[o].request), s.waits - {o};
    forall x ensures CountFits(counts, waits, x) {
      assert CountFits(s.counts, s.waits, x);
      ObserversWithout(s.waits, o, x);
    }
  }

  /** A request nobody is suspended on has no count. */
  lemma NobodyIsNotCounted(s: State, id: Id)
    requires CountsFit(s) && forall o | o in s.waits :: s.waits[o].request != id
    ensures id !in s.counts
  {
    assert CountFits(s.counts, s.waits, id);
    assert Observers(s.waits, id) == {};
  }

  lemma CreateKeepsInv(s: State, id: Id, action: string, source: Source, now: int)
    requires Inv(s) && id !in s.requests
    ensures Inv(Create(s, id, action, source, now))
  {
    NobodyIsNotCounted(s, id);
  }

  /** The cases of an observer that is suspended: it makes a future, or joins the one that is there. */
  lemma JoinKeepsWaiters(s: State, o: Observer, id: Id, timed: bool)
    requires WaitersFit(s) && IsPending(s, id)
    ensures WaitersFit(BeginWait(s, o, id, timed))
  {
  }

  lemma JoinKeepsWaits(s: State, o: Observer, id: Id, timed: bool)
    requires WaitersFit(s) && CountsFit(s) && WaitsFit(s) && IsPending(s, id) && o !in s.waits
    ensures WaitsFit(BeginWait(s, o, id, timed))
  {
    forall p | p in s.waits && s.waits[p].request == id ensures id in s.waiters {
      ObserverIsCounted(s, p);
    }
  }

  lemma JoinKeepsInv(s: State, o: Observer, id: Id, timed: bool)
    requires Inv(s) && IsPending(s, id) && o !in s.waits && o !in s.outcomes
    ensures Inv(BeginWait(s, o, id, timed))
  {
    CountsWithMore(s, o, BeginWait(s, o, id, timed).waits[o]);
    JoinKeepsWaiters(s, o, id, timed);
    JoinKeepsWaits(s, o, id, timed);
  }

  lemma BeginWaitKeepsInv(s: State, o: Observer, id: Id, timed: bool)
    requires Inv(s) && id in s.requests && o !in s.waits && o !in s.outcomes
    ensures Inv(BeginWait(s, o, id, timed))
  {
    if IsPending(s, id) {
      JoinKeepsInv(s, o, id, timed);
    }
  }

  lemma SettleKeepsInv(s: State, id: Id, r: Request)
    requires Inv(s) && IsPending(s, id) && r.status != Pending && r.response.Some?
    ensures Inv(Settle(s, id, r)) && KeepsSettled(s, Settle(s, id, r))
  {
    var t := Settle(s, id, r);
    SettleKeepsWaits(s, id, r);
    assert WaitersFit(t);
    assert CountsFit(t);
    assert RecordsFit(t) && OutcomesFit(t);
  }

  lemma SettleKeepsWaits(s: State, id: Id, r: Request)
    requires Inv(s) && IsPending(s, id) && r.status != Pending && r.response.Some?
    ensures WaitsFit(Settle(s, id, r))
  {
    var t := Settle(s, id, r);
    forall o | o in s.waits && s.waits[o].request == id ensures id in s.waiters && s.waits[o].future == s.waiters[id] {}
    if id in s.waiters {
      assert s.futures[s.waiters[id]] == Future(id, Unset);
    }
  }

  lemma {:induction false} CancelAllKeepsInv(s: State, ids: seq<Id>, source: Source)
    requires Inv(s)
    ensures Inv(CancelAllFrom(s, ids, source)) && KeepsSettled(s, CancelAllFrom(s, ids, source))
  {
    if ids != [] {
      var before, id := CancelAllFrom(s, ids[..|ids| - 1], source), ids[|ids| - 1];
      CancelAllKeepsInv(s, ids[..|ids| - 1], source);
      if IsPending(before, id) {
        SettleKeepsInv(before, id, before.requests[id].(status := Cancelled, response := Some(Reject)));
      }
    }
  }

  /** What an observer may end with. */
  ghost predicate MayEnd(s: State, o: Observer, outcome: Outcome)
    requires o in s.waits && s.waits[o].request in s.requests
  {
    var id := s.waits[o].request;
    match outcome
    case Left => true
    case TimedOut => s.waits[o].timed && !IsPending(s, id)
    case _ => !IsPending(s, id) && outcome == OutcomeOf(Expected(s.requests[id]))
  }

  lemma EndWaitKeepsWaiters(s: State, o: Observer, outcome: Outcome)
    requires WaitersFit(s) && WaitsFit(s) && CountsFit(s) && o in s.waits
    ensures WaitersFit(EndWait(s, o, outcome)) && EndWait(s, o, outcome).counts == CountsAfter(s, s.waits[o].request)
  {
    ObserverIsCounted(s, o);
  }

  lemma EndWaitKeepsWaits(s: State, o: Observer, outcome: Outcome)
    requires WaitersFit(s) && WaitsFit(s) && CountsFit(s) && o in s.waits
    ensures WaitsFit(EndWait(s, o, outcome))
  {
    var id := s.waits[o].request;
    forall p | p in s.waits && s.waits[p].request == id && p != o ensures Count(s, id) > 1 {
      OneObserver(s, o, p);
    }
  }

  lemma EndWaitKeepsInv(s: State, o: Observer, outcome: Outcome)
    requires Inv(s) && o in s.waits && MayEnd(s, o, outcome)
    ensures Inv(EndWait(s, o, outcome))
  {
    CountsWithout(s, o);
    EndWaitKeepsWaiters(s, o, outcome);
    EndWaitKeepsWaits(s, o, outcome);
  }

  lemma TimeOutKeepsInv(s: State, o: Observer)
    requires Inv(s) && o in s.waits && s.waits[o].timed
    ensures Inv(TimeOut(s, o)) && KeepsSettled(s, TimeOut(s, o))
  {
    var id := s.waits[o].request;
    if !IsPending(s, id) {
      assert id !in s.waiters;
      assert s.waiters - {id} == s.waiters;
      EndWaitKeepsInv(s, o, TimedOut);
    } else if Count(s, id) > 1 {
      SettleKeepsInv(s, id, s.requests[id].(status := Cancelled, response := Some(Reject), feedback := "approval timed out"));
      EndWaitKeepsInv(CancelRequest(s, id, "approval timed out"), o, TimedOut);
    } else {
      LastObserverTimesOut(s, o);
    }
  }

  /** A request is settled and its only observer leaves: what a timeout of the last observer amounts to. */
  lemma LastTimeOut(s: State, o: Observer)
    requires o in s.waits && s.waits[o].timed && IsPending(s, s.waits[o].request)
    requires Count(s, s.waits[o].request) <= 1
    ensures var id, t := s.waits[o].request, TimeOut(s, o);
      && t.waits == s.waits - {o} && t.counts == s.counts - {id} && t.futures == s.futures
      && t.waiters == s.waiters - {id} && t.order == s.order
      && t.requests == s.requests[id := s.requests[id].(status := Cancelled, response := Some(Reject),
                                                       feedback := "approval timed out")]
      && t.outcomes == s.outcomes[o := Ended(id, true, TimedOut)]
  {
  }

  lemma LastObserverKeepsRecords(s: State, t: State, o: Observer, id: Id, r: Request)
    requires RecordsFit(s) && OutcomesFit(s) && IsPending(s, id) && r.status == Cancelled && r.response.Some?
    requires t.requests == s.requests[id := r] && t.order == s.order
    requires t.outcomes == s.outcomes[o := Ended(id, true, TimedOut)]
    ensures RecordsFit(t) && OutcomesFit(t) && KeepsSettled(s, t)
  {
  }

  /** With no other observer the future is dropped unset, and nobody is left suspended on it. */
  lemma LastObserverTimesOut(s: State, o: Observer)
    requires Inv(s) && o in s.waits && s.waits[o].timed && IsPending(s, s.waits[o].request)
    requires Count(s, s.waits[o].request) <= 1
    ensures Inv(TimeOut(s, o)) && KeepsSettled(s, TimeOut(s, o))
  {
    var id, t := s.waits[o].request, TimeOut(s, o);
    LastTimeOut(s, o);
    CountsWithout(s, o);
    LastObserverKeepsWaits(s, t, o);
    LastObserverKeepsRecords(s, t, o, id, t.requests[id]);
  }

  lemma NobodyElseWaits(s: State, o: Observer)
    requires CountsFit(s) && o in s.waits && Count(s, s.waits[o].request) <= 1
    ensures forall p | p in s.waits && p != o :: s.waits[p].request != s.waits[o].request
  {
    forall p | p in s.waits && p != o ensures s.waits[p].request != s.waits[o].request {
      if s.waits[p].request == s.waits[o].request { OneObserver(s, o, p); }
    }
  }

  lemma LastObserverKeepsWaiters(s: State, t: State, id: Id)
    requires WaitersFit(s)
    requires t.counts == s.counts - {id} && t.futures == s.futures && t.waiters == s.waiters - {id}
    requires t.requests.Keys == s.requests.Keys
    requires forall x | x in s.requests && x != id :: t.requests[x] == s.requests[x]
    ensures WaitersFit(t)
  {
  }

  lemma LastObserverKeepsWaits(s: State, t: State, o: Observer)
    requires WaitersFit(s) && WaitsFit(s) && CountsFit(s) && o in s.waits && Count(s, s.waits[o].request) <= 1
    requires t.waits == s.waits - {o} && t.counts == s.counts - {s.waits[o].request} && t.futures == s.futures
    requires t.waiters == s.waiters - {s.waits[o].request} && t.requests.Keys == s.requests.Keys
    requires forall x | x in s.requests && x != s.waits[o].request :: t.requests[x] == s.requests[x]
    ensures WaitersFit(t) && WaitsFit(t)
  {
    NobodyElseWaits(s, o);
    LastObserverKeepsWaiters(s, t, s.waits[o].request);
  }

  /** Every step keeps the invariant, and no step rewrites a record that has left pending. */
  lemma NextKeepsInv(s: State, e: Event)
    requires Inv(s) && Enabled(s, e)
    ensures Inv(Next(s, e)) && KeepsSettled(s, Next(s, e))
  {
    match e
    case DoCreate(id, action, source, now) => CreateKeepsInv(s, id, action, source, now);
    case DoWait(o, id, timed) => BeginWaitKeepsInv(s, o, id, timed);
    case DoResolve(id, response, feedback, viaCache) =>
      if IsPending(s, id) {
        SettleKeepsInv(s, id,
          s.requests[id].(status := Resolved, response := Some(response), feedback := feedback, viaCache := viaCache));
      }
    case DoCancelBySource(source) => CancelAllKeepsInv(s, s.order, source);
    case DoWake(o) => EndWaitKeepsInv(s, o, OutcomeOf(s.futures[s.waits[o].future].state));
    case DoTimeOut(o) => TimeOutKeepsInv(s, o);
    case DoLeave(o) => EndWaitKeepsInv(s, o, Left);
  }

  // ---------------------------------------------------------------- runs

  predicate EnabledRun(s: State, events: seq<Event>)
    decreases |events|
  {
    events != [] ==> Enabled(s, events[0]) && EnabledRun(Next(s, events[0]), events[1..])
  }

  function Run(s: State, events: seq<Event>): State
    requires EnabledRun(s, events)
    decreases |events|
  {
    if events == [] then s else Run(Next(s, events[0]), events[1..])
  }

  /** A request leaves pending at most once: over any continuation its settled record stays what it is. */
  lemma {:induction false} RunKeepsInv(s: State, events: seq<Event>)
    requires Inv(s) && EnabledRun(s, events)
    ensures Inv(Run(s, events)) && KeepsSettled(s, Run(s, events))
    decreases |events|
  {
    if events != [] {
      NextKeepsInv(s, events[0]);
      RunKeepsInv(Next(s, events[0]), events[1..]);
    }
  }

  /**
   After any interleaving an untimed observer that was not cancelled itself holds exactly the outcome of the
   request's record, and that record is final.
   */
  lemma ObserversAgreeWithRecord(events: seq<Event>, o: Observer)
    requires EnabledRun(INITIAL, events)
    requires o in Run(INITIAL, events).outcomes
    ensures var s := Run(INITIAL, events);
      var e := s.outcomes[o];
      && e.request in s.requests
      && (!e.timed && e.outcome != Left ==>
            var r := s.requests[e.request];
            match r.status
            case Pending => false
            case Resolved => r.response.Some? && e.outcome == Responded(r.response.value, r.feedback)
            case Cancelled => e.outcome == WasCancelled)
  {
    InitialInv();
    RunKeepsInv(INITIAL, events);
  }

  /** No observer is stranded: it shares the registered future of a pending request, or it can be woken. */
  lemma NoObserverIsStranded(events: seq<Event>, o: Observer)
    requires EnabledRun(INITIAL, events)
    requires o in Run(INITIAL, events).waits
    ensures var s := Run(INITIAL, events);
      var w := s.waits[o];
      if IsPending(s, w.request) then w.request in s.waiters && s.waiters[w.request] == w.future
      else Enabled(s, DoWake(o))
  {
    InitialInv();
    RunKeepsInv(INITIAL, events);
  }

  /** A new record says what was asked for, by whom and when, and waits for its answer. */
  lemma RecordSaysWhatWasAsked(s: State, id: Id, action: string, source: Source, now: int)
    requires Inv(s) && Enabled(s, DoCreate(id, action, source, now))
    ensures var t := Next(s, DoCreate(id, action, source, now));
      && t.requests.Keys == s.requests.Keys + {id} && t.order == s.order + [id]
      && (forall x | x in s.requests :: t.requests[x] == s.requests[x])
      && var r := t.requests[id];
         && r.action == action && r.source == source && r.createdAt == now
         && r.status == Pending && r.response.None? && r.feedback == "" && !r.viaCache
  {
  }

  /** What the record of a settled request tells an observer. */
  ghost predicate Tells(r: Request, outcome: Outcome) {
    if r.status == Resolved && r.response.Some? then outcome == Responded(r.response.value, r.feedback)
    else outcome == WasCancelled
  }

  /** An observer of a settled request is told its outcome at once; of a pending one it is suspended. */
  lemma ObserverIsToldOrWaits(s: State, o: Observer, id: Id, timed: bool)
    requires WaitersFit(s) && Enabled(s, DoWait(o, id, timed))
    ensures var t := Next(s, DoWait(o, id, timed));
      && t.requests == s.requests
      && (s.requests[id].status != Pending ==>
            && o in t.outcomes && o !in t.waits && t.outcomes[o].request == id && t.outcomes[o].timed == timed
            && Tells(s.requests[id], t.outcomes[o].outcome))
      && (s.requests[id].status == Pending ==>
            o in t.waits && o !in t.outcomes && t.waits[o].request == id && t.waits[o].timed == timed)
  {
  }

  /** Waking tells what the record says; leaving tells nothing and settles nothing. */
  lemma WakingAndLeavingSettleNothing(s: State, o: Observer)
    requires Inv(s) && o in s.waits && s.waits[o].request in s.requests
    ensures var t, id := Next(s, DoLeave(o)), s.waits[o].request;
      t.requests == s.requests && t.waits == s.waits - {o} && t.outcomes == s.outcomes[o := Ended(id, s.waits[o].timed, Left)]
    ensures Enabled(s, DoWake(o)) ==>
      var t, id := Next(s, DoWake(o)), s.waits[o].request;
      && t.requests == s.requests && t.waits == s.waits - {o}
      && o in t.outcomes && t.outcomes[o].request == id && Tells(s.requests[id], t.outcomes[o].outcome)
  {
  }

  /** A timeout cancels the request for everybody, unless it was settled already. */
  lemma TimeoutCancels(s: State, o: Observer)
    requires Enabled(s, DoTimeOut(o))
    ensures var t, id := Next(s, DoTimeOut(o)), s.waits[o].request;
      && t.waits == s.waits - {o} && t.outcomes == s.outcomes[o := Ended(id, true, TimedOut)]
      && t.requests.Keys == s.requests.Keys
      && (forall x | x in s.requests && (x != id || s.requests[x].status != Pending) :: t.requests[x] == s.requests[x])
      && (s.requests[id].status == Pending ==>
            && t.requests[id].status == Cancelled && t.requests[id].response == Some(Reject)
            && t.requests[id].feedback == "approval timed out" && t.requests[id].source == s.requests[id].source
            && t.requests[id].action == s.requests[id].action)
  {
    var id := s.waits[o].request;
    var dropped := if Count(s, id) <= 1 then s.(waiters := s.waiters - {id}) else s;
    var cancelled := CancelRequest(dropped, id, "approval timed out");
    assert cancelled.waits == s.waits && cancelled.outcomes == s.outcomes;
    assert Next(s, DoTimeOut(o)) == EndWait(cancelled, o, TimedOut);
  }

  /** The first answer to a pending request is what its record says from then on, over every run. */
  lemma RecordKeepsItsAnswer(s: State, id: Id, response: Response, feedback: string, viaCache: bool, events: seq<Event>)
    requires Inv(s) && id in s.requests && s.requests[id].status == Pending
    requires EnabledRun(s, [DoResolve(id, response, feedback, viaCache)] + events)
    ensures var t := Run(s, [DoResolve(id, response, feedback, viaCache)] + events);
      && id in t.requests
      && var r, before := t.requests[id], s.requests[id];
         && r.status == Resolved && r.response == Some(response) && r.feedback == feedback && r.viaCache == viaCache
         && r.action == before.action && r.source == before.source && r.createdAt == before.createdAt
  {
    var e := DoResolve(id, response, feedback, viaCache);
    assert ([e] + events)[1..] == events;
    NextKeepsInv(s, e);
    RunKeepsInv(Next(s, e), events);
  }

  /** Cancelling the listed requests in turn takes them out of the pending ones of the source, one at a time. */
  lemma {:induction false} CancelAllLeaves(s: State, ids: seq<Id>, source: Source)
    ensures PendingFrom(CancelAllFrom(s, ids, source), source) == PendingFrom(s, source) - set id | id in ids
    decreases |ids|
  {
    if ids != [] {
      var front, last := ids[..|ids| - 1], ids[|ids| - 1];
      CancelAllLeaves(s, front, source);
      assert forall id :: id in ids <==> id in front || id == last by { assert ids == front + [last]; }
      CancelOneLeaves(CancelAllFrom(s, front, source), last, source);
    } else {
      assert PendingFrom(s, source) - (set id | id in ids) == PendingFrom(s, source);
    }
  }

  lemma CancelOneLeaves(s: State, id: Id, source: Source)
    ensures PendingFrom(CancelIfFrom(s, id, source), source) == PendingFrom(s, source) - {id}
  {
  }

  /** Cancelling a source leaves none of its requests pending and touches no other request. */
  lemma {:induction false} CancelBySourceIsComplete(s: State, source: Source, id: Id)
    requires Inv(s)
    ensures var t := CancelBySource(s, source);
      && t.requests.Keys == s.requests.Keys
      && (IsPending(s, id) && s.requests[id].source == source ==> t.requests[id].status == Cancelled)
      && (id in s.requests && s.requests[id].source != source ==> t.requests[id] == s.requests[id])
  {
    CancelAllIsComplete(s, s.order, source, id);
  }

  lemma {:induction false} CancelAllIsComplete(s: State, ids: seq<Id>, source: Source, id: Id)
    ensures var t := CancelAllFrom(s, ids, source);
      && t.requests.Keys == s.requests.Keys
      && (id in s.requests ==>
            var r := s.requests[id];
            t.requests[id] == if r.status == Pending && r.source == source && id in ids
                              then r.(status := Cancelled, response := Some(Reject)) else r)
  {
    if ids != [] {
      CancelAllIsComplete(s, ids[..|ids| - 1], source, id);
      assert ids == ids[..|ids| - 1] + [ids[|ids| - 1]];
    }
  }
}
