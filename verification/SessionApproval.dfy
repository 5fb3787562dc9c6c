/**
 Approvals of a session on top of the approval runtime: automatic modes, the session cache and its cascade. All
 approvals that are shared use one state and one runtime, so a session is a single state here, and its moves
 are what any of the approvals, the user interface or another observer does between two suspension points.
 */
module SessionApproval {
  import opened Wrappers
  import opened ApprovalProtocol

  /** One resolution of a request, in the order they happened. */
  datatype Resolution = Resolution(id: Id, action: string, response: Response, viaCache: bool)

  type Trace = seq<Resolution>

  datatype Answer =
    | GrantedByMode
    | GrantedByCache(action: string)
    | GrantedByResponse(id: Id)
    | Denied(id: Id, feedback: string)

  /** A request whose caller is suspended. */
  datatype Ask = Ask(id: Id, action: string)

  datatype Session = Session(
    runtime: State,
    trace: Trace,
    yolo: bool,
    afk: bool,
    runtimeAfk: bool,
    autoApprove: set<string>,
    asks: map<Observer, Ask>,
    answers: map<Observer, Answer>)

  function Opened(yolo: bool, afk: bool, runtimeAfk: bool, saved: set<string>): Session {
    Session(INITIAL, [], yolo, afk, runtimeAfk, saved, map[], map[])
  }

  predicate AutoMode(s: Session) {
    s.yolo || s.afk || s.runtimeAfk
  }

  function ResolveTraced(rt: State, trace: Trace, id: Id, response: Response, feedback: string, viaCache: bool): (State, Trace) {
    if !IsPending(rt, id) then (rt, trace)
    else (Resolve(rt, id, response, feedback, viaCache),
          trace + [Resolution(id, rt.requests[id].action, response, viaCache)])
  }

  /** The pending ids of a list, in its order. */
  function PendingOf(rt: State, ids: seq<Id>): (r: seq<Id>)
    ensures forall id :: id in r <==> id in ids && IsPending(rt, id)
  {
    if ids == [] then []
    else
      var before, last := PendingOf(rt, ids[..|ids| - 1]), ids[|ids| - 1];
      assert ids == ids[..|ids| - 1] + [last];
      if IsPending(rt, last) then before + [last] else before
  }

  function CreatedAt(rt: State, id: Id): int {
    if id in rt.requests then rt.requests[id].createdAt else 0
  }

  /** Inserting behind every id that is not younger keeps equal creation times in order. */
  function InsertByAge(rt: State, sorted: seq<Id>, id: Id): (r: seq<Id>)
    ensures forall x :: x in r <==> x == id || x in sorted
  {
    if sorted == [] then [id]
    else
      var front, last := sorted[..|sorted| - 1], sorted[|sorted| - 1];
      assert sorted == front + [last];
      if CreatedAt(rt, last) <= CreatedAt(rt, id) then sorted + [id] else InsertByAge(rt, front, id) + [last]
  }

  function SortByAge(rt: State, ids: seq<Id>): (r: seq<Id>)
    ensures forall x :: x in r <==> x in ids
  {
    if ids == [] then []
    else
      assert ids == ids[..|ids| - 1] + [ids[|ids| - 1]];
      InsertByAge(rt, SortByAge(rt, ids[..|ids| - 1]), ids[|ids| - 1])
  }

  function ListPending(rt: State): seq<Id> {
    SortByAge(rt, PendingOf(rt, rt.order))
  }

  /** Approves every listed request of the same action. */
  function Cascade(rt: State, trace: Trace, ids: seq<Id>, action: string): (State, Trace) {
    if ids == [] then (rt, trace)
    else
      var (r, t) := Cascade(rt, trace, ids[..|ids| - 1], action);
      var id := ids[|ids| - 1];
      if id in r.requests && r.requests[id].action == action
      then ResolveTraced(r, t, id, Approve, "", true) else (r, t)
  }

  /** Asking: granted at once, or a new request with the caller suspended on it. */
  function Begin(s: Session, o: Observer, id: Id, action: string, source: Source, now: int): Session {
    if AutoMode(s) then s.(answers := s.answers[o := GrantedByMode])
    else if action in s.autoApprove then s.(answers := s.answers[o := GrantedByCache(action)])
    else
      var created := Create(s.runtime, id, action, source, now);
      s.(runtime := BeginWait(created, o, id, false), asks := s.asks[o := Ask(id, action)])
  }

  /** What a caller does once it is awake and its future held `state`. */
  function Conclude(rt: State, trace: Trace, autoApprove: set<string>, id: Id, action: string, state: FutureState)
    : (State, Trace, set<string>, Answer)
  {
    match state
    case Value(Approve, _) => (rt, trace, autoApprove, GrantedByResponse(id))
    case Value(ApproveForSession, _) =>
      var (rt', trace') := Cascade(rt, trace, ListPending(rt), action);
      (rt', trace', autoApprove + {action}, GrantedByResponse(id))
    case Value(Reject, feedback) => (rt, trace, autoApprove, Denied(id, feedback))
    case _ => (rt, trace, autoApprove, Denied(id, if id in rt.requests then rt.requests[id].feedback else ""))
  }

  /** The caller of a settled request resumes. */
  function Finish(s: Session, o: Observer): Session
    requires o in s.asks && Enabled(s.runtime, DoWake(o))
  {
    var Ask(id, action) := s.asks[o];
    var state := s.runtime.futures[s.runtime.waits[o].future].state;
    var (rt, trace, autoApprove, answer) :=
      Conclude(Next(s.runtime, DoWake(o)), s.trace, s.autoApprove, id, action, state);
    s.(runtime := rt, trace := trace, autoApprove := autoApprove, asks := s.asks - {o},
       answers := s.answers[o := answer])
  }

  datatype Move =
    | DoBegin(observer: Observer, id: Id, action: string, source: Source, now: int)
    | DoFinish(observer: Observer)
    | DoAbandon(observer: Observer)
    | DoOther(event: Event)
    | SetYolo(on: bool)
    | SetAfk(on: bool)
    | SetRuntimeAfk(on: bool)

  /** What others do with the runtime: they never create requests or resolve through the session cache. */
  predicate IsOther(s: Session, e: Event) {
    match e
    case DoCreate(_, _, _, _) => false
    case DoResolve(_, _, _, viaCache) => !viaCache
    case DoWait(o, _, _) => o !in s.asks && o !in s.answers
    case DoWake(o) => o !in s.asks
    case DoTimeOut(o) => o !in s.asks
    case DoLeave(o) => o !in s.asks
    case DoCancelBySource(_) => true
  }

  predicate MoveEnabled(s: Session, m: Move) {
    match m
    case DoBegin(o, id, _, _, _) =>
      id !in s.runtime.requests && o !in s.runtime.waits && o !in s.runtime.outcomes && o !in s.asks && o !in s.answers
    case DoFinish(o) => o in s.asks && Enabled(s.runtime, DoWake(o))
    case DoAbandon(o) => o in s.asks && Enabled(s.runtime, DoLeave(o))
    case DoOther(e) => IsOther(s, e) && Enabled(s.runtime, e)
    case _ => true
  }

  function Proceed(s: Session, m: Move): Session
    requires MoveEnabled(s, m)
  {
    match m
    case DoBegin(o, id, action, source, now) => Begin(s, o, id, action, source, now)
    case DoFinish(o) => Finish(s, o)
    case DoAbandon(o) => s.(runtime := Next(s.runtime, DoLeave(o)), asks := s.asks - {o})
    case DoOther(DoResolve(id, response, feedback, viaCache)) =>
      var (rt, trace) := ResolveTraced(s.runtime, s.trace, id, response, feedback, viaCache);
      s.(runtime := rt, trace := trace)
    case DoOther(e) => s.(runtime := Next(s.runtime, e))
    case SetYolo(on) => s.(yolo := on)
    case SetAfk(on) => s.(afk := on, runtimeAfk := on && s.runtimeAfk)
    case SetRuntimeAfk(on) => s.(runtimeAfk := on)
  }

  // ---------------------------------------------------------------- who is asked

  /** The caller is suspended, untimed, on a new pending record of what it asked for. */
  ghost predicate IsAsked(s: Session, o: Observer, id: Id, action: string, source: Source, now: int) {
    && o in s.asks && s.asks[o] == Ask(id, action) && o !in s.answers
    && id in s.runtime.requests
    && s.runtime.requests[id].status == ApprovalProtocol.Pending && s.runtime.requests[id].response.None?
    && s.runtime.requests[id].action == action && s.runtime.requests[id].source == source
    && s.runtime.requests[id].createdAt == now
    && o in s.runtime.waits && s.runtime.waits[o].request == id && !s.runtime.waits[o].timed
  }

  /**
   A request is granted at once by a mode exactly while yolo or one of the afk flags is set, by the cache exactly while
   none is and its action was approved for the session, and it is put to the user in all other cases.
   */
  lemma BeginAnswers(s: Session, o: Observer, id: Id, action: string, source: Source, now: int)
    requires MoveEnabled(s, DoBegin(o, id, action, source, now))
    ensures var s' := Proceed(s, DoBegin(o, id, action, source, now));
      && (o in s'.answers && s'.answers[o] == GrantedByMode <==> s.yolo || s.afk || s.runtimeAfk)
      && (o in s'.answers && s'.answers[o] == GrantedByCache(action) <==>
            !s.yolo && !s.afk && !s.runtimeAfk && action in s.autoApprove)
      && (IsAsked(s', o, id, action, source, now) <==>
            !s.yolo && !s.afk && !s.runtimeAfk && action !in s.autoApprove)
      && (o in s'.answers ==> s'.runtime == s.runtime && s'.asks == s.asks)
  {
  }

  /** Entering any of the modes grants the next request, whatever it is for. */
  lemma EnteringAModeGrants(s: Session, m: Move, o: Observer, id: Id, action: string, source: Source, now: int)
    requires m == SetYolo(true) || m == SetAfk(true) || m == SetRuntimeAfk(true)
    requires MoveEnabled(s, DoBegin(o, id, action, source, now))
    ensures var t := Proceed(s, m);
      MoveEnabled(t, DoBegin(o, id, action, source, now)) &&
      var s' := Proceed(t, DoBegin(o, id, action, source, now));
      o in s'.answers && s'.answers[o] == GrantedByMode
  {
    BeginAnswers(Proceed(s, m), o, id, action, source, now);
  }

  /** Leaving yolo and afk also ends an afk that was meant for this invocation only: the user is asked again. */
  lemma LeavingModesAsksAgain(s: Session, o: Observer, id: Id, action: string, source: Source, now: int)
    requires MoveEnabled(s, DoBegin(o, id, action, source, now)) && action !in s.autoApprove
    ensures var t := Proceed(Proceed(s, SetYolo(false)), SetAfk(false));
      MoveEnabled(t, DoBegin(o, id, action, source, now)) &&
      IsAsked(Proceed(t, DoBegin(o, id, action, source, now)), o, id, action, source, now)
  {
    BeginAnswers(Proceed(Proceed(s, SetYolo(false)), SetAfk(false)), o, id, action, source, now);
  }

  /** What others do with the runtime happens to it, and only an answer of theirs enters the trace. */
  lemma OthersReachTheRuntime(s: Session, e: Event)
    requires MoveEnabled(s, DoOther(e))
    ensures var s' := Proceed(s, DoOther(e));
      && s'.runtime == Next(s.runtime, e) && s'.asks == s.asks && s'.answers == s.answers
      && s'.autoApprove == s.autoApprove
      && s'.trace == s.trace + if e.DoResolve? && e.id in s.runtime.requests
                                  && s.runtime.requests[e.id].status == ApprovalProtocol.Pending
                               then [Resolution(e.id, s.runtime.requests[e.id].action, e.response, false)] else []
  {
    assert s.trace + [] == s.trace;
  }

  /** A caller that gives up leaves its wait and is not answered. */
  lemma AbandoningLeaves(s: Session, o: Observer)
    requires MoveEnabled(s, DoAbandon(o))
    ensures var s' := Proceed(s, DoAbandon(o));
      && s'.runtime == Next(s.runtime, DoLeave(o)) && s'.asks == s.asks - {o} && s'.answers == s.answers
      && s'.trace == s.trace && s'.autoApprove == s.autoApprove
  {
  }

  /** Each setting changes itself only, except that leaving afk also ends the afk of this invocation. */
  lemma SettingsAreIndependent(s: Session, on: bool)
    ensures Proceed(s, SetYolo(on)) == s.(yolo := on)
    ensures Proceed(s, SetAfk(true)) == s.(afk := true)
    ensures Proceed(s, SetAfk(false)) == s.(afk := false, runtimeAfk := false)
    ensures Proceed(s, SetRuntimeAfk(on)) == s.(runtimeAfk := on)
  {
  }

  // ---------------------------------------------------------------- the invariant

  /** No request is left pending whose action the session approves automatically. */
  ghost predicate NonePendingCached(rt: State, autoApprove: set<string>) {
    forall id | IsPending(rt, id) :: rt.requests[id].action !in autoApprove
  }

  predicate IsSessionApproval(r: Resolution, action: string) {
    r.action == action && r.response == ApproveForSession
  }

  /** Some resolution of the trace approves the action for the session. */
  ghost predicate Licensed(trace: Trace, action: string) {
    exists i | 0 <= i < |trace| :: IsSessionApproval(trace[i], action)
  }

  /** Every resolution through the cache comes after an approval of its action for the session. */
  ghost predicate CacheIsLicensed(trace: Trace) {
    forall i | 0 <= i < |trace| && trace[i].viaCache :: Licensed(trace[..i], trace[i].action)
  }

  /** Every resolved record is in the trace. */
  ghost predicate TraceIsComplete(rt: State, trace: Trace) {
    forall id | id in rt.requests && rt.requests[id].status == Resolved && rt.requests[id].response.Some? ::
      Resolution(id, rt.requests[id].action, rt.requests[id].response.value, rt.requests[id].viaCache) in trace
  }

  ghost predicate CacheIsKnown(trace: Trace, autoApprove: set<string>, saved: set<string>) {
    forall action | action in autoApprove :: action in saved || Licensed(trace, action)
  }

  ghost predicate AsksFit(rt: State, asks: map<Observer, Ask>) {
    forall o | o in asks ::
      && o in rt.waits && rt.waits[o].request == asks[o].id && !rt.waits[o].timed
      && asks[o].id in rt.requests && rt.requests[asks[o].id].action == asks[o].action
  }

  predicate IsApproval(r: Response) {
    r == Approve || r == ApproveForSession
  }

  /** An answer that came from a record says what the record says. */
  ghost predicate AnswerFits(rt: State, autoApprove: set<string>, a: Answer) {
    match a
    case GrantedByMode => true
    case GrantedByCache(action) => action in autoApprove
    case GrantedByResponse(id) =>
      id in rt.requests && rt.requests[id].status == Resolved
      && rt.requests[id].response.Some? && IsApproval(rt.requests[id].response.value)
    case Denied(id, feedback) =>
      id in rt.requests && rt.requests[id].feedback == feedback
      && (rt.requests[id].status == Cancelled
          || (rt.requests[id].status == Resolved && rt.requests[id].response == Some(Reject)))
  }

  ghost predicate AnswersFit(s: Session) {
    forall o | o in s.answers :: AnswerFits(s.runtime, s.autoApprove, s.answers[o])
  }

  ghost predicate SessionInv(s: Session, saved: set<string>) {
    && Inv(s.runtime)
    && NonePendingCached(s.runtime, s.autoApprove)
    && CacheIsLicensed(s.trace)
    && TraceIsComplete(s.runtime, s.trace)
    && CacheIsKnown(s.trace, s.autoApprove, saved)
    && AsksFit(s.runtime, s.asks)
    && AnswersFit(s)
  }

  // ---------------------------------------------------------------- runtime steps that only settle requests

  /** What a runtime step that creates nothing does to requests and suspended observers. */
  ghost predicate OnlySettles(rt: State, rt': State) {
    && rt'.requests.Keys == rt.requests.Keys && rt'.order == rt.order
    && forall id | id in rt.requests ::
         && rt'.requests[id].action == rt.requests[id].action
         && (rt.requests[id].status != Pending ==> rt'.requests[id] == rt.requests[id])
  }

  lemma CacheIsLicensedByMore(trace: Trace, r: Resolution)
    requires CacheIsLicensed(trace) && (r.viaCache ==> Licensed(trace, r.action))
    ensures CacheIsLicensed(trace + [r])
  {
    var all := trace + [r];
    forall i | 0 <= i < |all| && all[i].viaCache ensures Licensed(all[..i], all[i].action) {
      assert all[..i] == trace[..i];
      if i == |trace| {
        assert trace[..i] == trace;
      }
    }
  }

  lemma {:induction false} CancelAllOnlySettles(rt: State, ids: seq<Id>, source: Source)
    ensures OnlySettles(rt, CancelAllFrom(rt, ids, source)) && CancelAllFrom(rt, ids, source).waits == rt.waits
    ensures forall id | id in rt.requests && CancelAllFrom(rt, ids, source).requests[id].status == Resolved ::
      rt.requests[id].status == Resolved
  {
    if ids != [] {
      CancelAllOnlySettles(rt, ids[..|ids| - 1], source);
    }
  }

  /** Settling without resolving, while every suspended observer but `o` stays suspended. */
  ghost predicate OnlyCancels(rt: State, rt': State, o: Observer) {
    && OnlySettles(rt, rt')
    && (forall id | id in rt.requests && rt'.requests[id].status == Resolved :: rt.requests[id].status == Resolved)
    && (forall p | p in rt.waits && p != o :: p in rt'.waits && rt'.waits[p] == rt.waits[p])
  }

  lemma EndWaitOnlyCancels(rt: State, o: Observer, outcome: Outcome)
    requires o in rt.waits && rt.waits[o].request in rt.requests
    ensures OnlyCancels(rt, EndWait(rt, o, outcome), o)
    ensures EndWait(rt, o, outcome).requests == rt.requests
  {
  }

  lemma CancelRequestOnlyCancels(rt: State, id: Id, o: Observer)
    ensures OnlyCancels(rt, CancelRequest(rt, id, "approval timed out"), o)
    ensures CancelRequest(rt, id, "approval timed out").waits == rt.waits
  {
  }

  lemma TimeOutOnlyCancels(rt: State, o: Observer)
    requires o in rt.waits && rt.waits[o].request in rt.requests
    ensures OnlyCancels(rt, TimeOut(rt, o), o)
  {
    var id := rt.waits[o].request;
    var dropped := if Count(rt, id) <= 1 then rt.(waiters := rt.waiters - {id}) else rt;
    var cancelled := CancelRequest(dropped, id, "approval timed out");
    CancelRequestOnlyCancels(dropped, id, o);
    EndWaitOnlyCancels(cancelled, o, TimedOut);
  }

  lemma BeginWaitOnlyCancels(rt: State, o: Observer, id: Id, timed: bool)
    requires id in rt.requests
    ensures OnlyCancels(rt, BeginWait(rt, o, id, timed), o)
  {
  }

  function ActorOf(e: Event): Observer {
    match e
    case DoWait(o, _, _) => o
    case DoWake(o) => o
    case DoTimeOut(o) => o
    case DoLeave(o) => o
    case _ => 0
  }

  /** Runtime steps other than creating and resolving resolve nothing and keep other observers suspended. */
  lemma StepOnlyCancels(rt: State, e: Event)
    requires Enabled(rt, e) && !e.DoCreate? && !e.DoResolve?
    ensures OnlyCancels(rt, Next(rt, e), ActorOf(e))
    ensures e.DoCancelBySource? ==> Next(rt, e).waits == rt.waits
  {
    match e
    case DoWait(o, id, timed) => BeginWaitOnlyCancels(rt, o, id, timed);
    case DoWake(o) => EndWaitOnlyCancels(rt, o, OutcomeOf(rt.futures[rt.waits[o].future].state));
    case DoTimeOut(o) => TimeOutOnlyCancels(rt, o);
    case DoLeave(o) => EndWaitOnlyCancels(rt, o, Left);
    case DoCancelBySource(source) => CancelAllOnlySettles(rt, rt.order, source);
  }

  /** A step that only settles, and resolves nothing, keeps everything the session promises. */
  lemma SettlingKeepsPromises(rt: State, rt': State, trace: Trace, autoApprove: set<string>, a: Answer)
    requires OnlySettles(rt, rt')
    ensures NonePendingCached(rt, autoApprove) ==> NonePendingCached(rt', autoApprove)
    ensures AnswerFits(rt, autoApprove, a) ==> AnswerFits(rt', autoApprove, a)
    ensures TraceIsComplete(rt, trace)
         && (forall id | id in rt.requests && rt'.requests[id].status == Resolved :: rt.requests[id].status == Resolved)
         ==> TraceIsComplete(rt', trace)
  {
  }

  lemma OtherKeepsSession(s: Session, e: Event, saved: set<string>)
    requires SessionInv(s, saved) && IsOther(s, e) && Enabled(s.runtime, e) && !e.DoResolve?
    ensures SessionInv(s.(runtime := Next(s.runtime, e)), saved)
  {
    var t := s.(runtime := Next(s.runtime, e));
    NextKeepsInv(s.runtime, e);
    StepOnlyCancels(s.runtime, e);
    forall o | o in s.answers ensures AnswerFits(t.runtime, t.autoApprove, t.answers[o]) {
      SettlingKeepsPromises(s.runtime, t.runtime, s.trace, s.autoApprove, s.answers[o]);
    }
    SettlingKeepsPromises(s.runtime, t.runtime, s.trace, s.autoApprove, GrantedByMode);
  }

  /** The trace stays complete when the resolution of a pending request is added to it. */
  lemma ResolvedTraceIsComplete(rt: State, rt': State, trace: Trace, id: Id, entry: Resolution)
    requires TraceIsComplete(rt, trace) && id in rt.requests && OnlySettles(rt, rt')
    requires forall x | x in rt.requests && x != id :: rt'.requests[x] == rt.requests[x]
    requires rt'.requests[id].response == Some(entry.response)
    requires entry == Resolution(id, rt'.requests[id].action, entry.response, rt'.requests[id].viaCache)
    ensures TraceIsComplete(rt', trace + [entry])
  {
    var more := trace + [entry];
    assert more[|trace|] == entry;
    assert forall r | r in trace :: r in more;
  }

  lemma ResolvingSettles(rt: State, id: Id, response: Response, feedback: string, viaCache: bool)
    requires Inv(rt) && IsPending(rt, id)
    ensures var rt' := Resolve(rt, id, response, feedback, viaCache);
      && Inv(rt') && OnlySettles(rt, rt') && rt'.waits == rt.waits && !IsPending(rt', id)
      && (forall x | x in rt.requests && x != id :: rt'.requests[x] == rt.requests[x])
      && rt'.requests[id].action == rt.requests[id].action && rt'.requests[id].response == Some(response)
      && rt'.requests[id].viaCache == viaCache
  {
    assert Next(rt, DoResolve(id, response, feedback, viaCache)) == Resolve(rt, id, response, feedback, viaCache);
    NextKeepsInv(rt, DoResolve(id, response, feedback, viaCache));
  }

  lemma ResolveOnlySettles(rt: State, trace: Trace, id: Id, response: Response, feedback: string, viaCache: bool)
    requires Inv(rt) && TraceIsComplete(rt, trace) && CacheIsLicensed(trace)
    requires viaCache && IsPending(rt, id) ==> Licensed(trace, rt.requests[id].action)
    ensures var (rt', trace') := ResolveTraced(rt, trace, id, response, feedback, viaCache);
      && Inv(rt') && OnlySettles(rt, rt') && rt'.waits == rt.waits && !IsPending(rt', id)
      && TraceIsComplete(rt', trace') && CacheIsLicensed(trace') && trace <= trace'
  {
    if IsPending(rt, id) {
      ResolvingSettles(rt, id, response, feedback, viaCache);
      var entry := Resolution(id, rt.requests[id].action, response, viaCache);
      CacheIsLicensedByMore(trace, entry);
      ResolvedTraceIsComplete(rt, Resolve(rt, id, response, feedback, viaCache), trace, id, entry);
    }
  }

  lemma LicensedInLonger(trace: Trace, longer: Trace, action: string)
    requires trace <= longer && Licensed(trace, action)
    ensures Licensed(longer, action)
  {
    var i :| 0 <= i < |trace| && IsSessionApproval(trace[i], action);
    assert IsSessionApproval(longer[i], action);
  }

  lemma {:induction false} CascadeOnlySettles(rt: State, trace: Trace, ids: seq<Id>, action: string)
    requires Inv(rt) && TraceIsComplete(rt, trace) && CacheIsLicensed(trace) && Licensed(trace, action)
    ensures var (rt', trace') := Cascade(rt, trace, ids, action);
      && Inv(rt') && OnlySettles(rt, rt') && rt'.waits == rt.waits
      && TraceIsComplete(rt', trace') && CacheIsLicensed(trace') && trace <= trace'
      && (forall id | id in ids && id in rt'.requests :: rt'.requests[id].action == action ==> !IsPending(rt', id))
  {
    if ids != [] {
      var front, id := ids[..|ids| - 1], ids[|ids| - 1];
      assert ids == front + [id];
      CascadeOnlySettles(rt, trace, front, action);
      var (r, t) := Cascade(rt, trace, front, action);
      LicensedInLonger(trace, t, action);
      if id in r.requests && r.requests[id].action == action {
        ResolveOnlySettles(r, t, id, Approve, "", true);
      }
    }
  }

  /** After the cascade no request of the action is pending, whoever asked. */
  lemma CascadeIsComplete(rt: State, trace: Trace, action: string)
    requires Inv(rt) && TraceIsComplete(rt, trace) && CacheIsLicensed(trace) && Licensed(trace, action)
    ensures var rt' := Cascade(rt, trace, ListPending(rt), action).0;
      forall id | IsPending(rt', id) :: rt'.requests[id].action != action
  {
    CascadeOnlySettles(rt, trace, ListPending(rt), action);
    var rt' := Cascade(rt, trace, ListPending(rt), action).0;
    forall id | IsPending(rt', id) ensures rt'.requests[id].action != action {
      assert IsPending(rt, id);
      assert id in rt.order;
      assert id in ListPending(rt);
    }
  }

  // ---------------------------------------------------------------- moves

  lemma CreatedSessionFits(s: Session, id: Id, action: string, source: Source, now: int, saved: set<string>)
    requires SessionInv(s, saved) && id !in s.runtime.requests && action !in s.autoApprove
    requires Inv(Create(s.runtime, id, action, source, now))
    ensures SessionInv(s.(runtime := Create(s.runtime, id, action, source, now)), saved)
  {
  }

  /** Suspending one more caller, with the requests as they are, keeps the session. */
  lemma AskedSessionFits(s: Session, waiting: State, o: Observer, id: Id, action: string, saved: set<string>)
    requires SessionInv(s, saved) && id in s.runtime.requests && s.runtime.requests[id].action == action
    requires Inv(waiting) && waiting.requests == s.runtime.requests && waiting.order == s.runtime.order
    requires o !in s.runtime.waits && o in waiting.waits
    requires waiting.waits == s.runtime.waits[o := waiting.waits[o]]
    requires waiting.waits[o].request == id && !waiting.waits[o].timed
    ensures SessionInv(s.(runtime := waiting, asks := s.asks[o := Ask(id, action)]), saved)
  {
  }

  lemma BeginKeepsSession(s: Session, o: Observer, id: Id, action: string, source: Source, now: int, saved: set<string>)
    requires SessionInv(s, saved) && MoveEnabled(s, DoBegin(o, id, action, source, now))
    ensures SessionInv(Begin(s, o, id, action, source, now), saved)
  {
    if !AutoMode(s) && action !in s.autoApprove {
      var created := Create(s.runtime, id, action, source, now);
      NextKeepsInv(s.runtime, DoCreate(id, action, source, now));
      CreatedSessionFits(s, id, action, source, now, saved);
      NextKeepsInv(created, DoWait(o, id, false));
      assert IsPending(created, id);
      AskedSessionFits(s.(runtime := created), BeginWait(created, o, id, false), o, id, action, saved);
    }
  }

  /** The future an asking caller wakes with says what its record says. */
  lemma WokenByRecord(s: Session, o: Observer, saved: set<string>)
    requires SessionInv(s, saved) && o in s.asks && Enabled(s.runtime, DoWake(o))
    ensures var id := s.asks[o].id;
      && id in s.runtime.requests && !IsPending(s.runtime, id)
      && s.runtime.futures[s.runtime.waits[o].future].state == Expected(s.runtime.requests[id])
  {
  }

  lemma WakeKeepsSession(s: Session, o: Observer, saved: set<string>)
    requires SessionInv(s, saved) && o in s.asks && Enabled(s.runtime, DoWake(o))
    ensures SessionInv(s.(runtime := Next(s.runtime, DoWake(o)), asks := s.asks - {o}), saved)
    ensures Next(s.runtime, DoWake(o)).requests == s.runtime.requests
  {
    var t := s.(asks := s.asks - {o});
    OtherKeepsSession(t, DoWake(o), saved);
  }

  lemma AnsweringKeepsSession(s: Session, o: Observer, a: Answer, saved: set<string>)
    requires SessionInv(s, saved) && AnswerFits(s.runtime, s.autoApprove, a)
    ensures SessionInv(s.(answers := s.answers[o := a]), saved)
  {
  }

  lemma FinishKeepsSession(s: Session, o: Observer, saved: set<string>)
    requires SessionInv(s, saved) && o in s.asks && Enabled(s.runtime, DoWake(o))
    ensures SessionInv(Finish(s, o), saved)
  {
    var id, action := s.asks[o].id, s.asks[o].action;
    var woken := s.(runtime := Next(s.runtime, DoWake(o)), asks := s.asks - {o});
    WokenByRecord(s, o, saved);
    WakeKeepsSession(s, o, saved);
    var r := s.runtime.requests[id];
    match Expected(r)
    case Value(Approve, _) => AnsweringKeepsSession(woken, o, GrantedByResponse(id), saved);
    case Value(ApproveForSession, _) =>
      CachingKeepsSession(woken, o, id, action, saved);
    case Value(Reject, feedback) => AnsweringKeepsSession(woken, o, Denied(id, feedback), saved);
    case _ => AnsweringKeepsSession(woken, o, Denied(id, r.feedback), saved);
  }

  lemma CachingKeepsSession(s: Session, o: Observer, id: Id, action: string, saved: set<string>)
    requires SessionInv(s, saved) && id in s.runtime.requests && s.runtime.requests[id].action == action
    requires s.runtime.requests[id].status == Resolved && s.runtime.requests[id].response == Some(ApproveForSession)
    ensures var (rt, trace) := Cascade(s.runtime, s.trace, ListPending(s.runtime), action);
      SessionInv(s.(runtime := rt, trace := trace, autoApprove := s.autoApprove + {action},
                    answers := s.answers[o := GrantedByResponse(id)]), saved)
  {
    ResolutionLicenses(s.runtime, s.trace, id, action);
    var (rt, trace) := Cascade(s.runtime, s.trace, ListPending(s.runtime), action);
    CascadeOnlySettles(s.runtime, s.trace, ListPending(s.runtime), action);
    CascadeIsComplete(s.runtime, s.trace, action);
    LicensedInLonger(s.trace, trace, action);
    CachedSessionFits(s, rt, trace, o, id, action, saved);
  }

  lemma ResolutionLicenses(rt: State, trace: Trace, id: Id, action: string)
    requires TraceIsComplete(rt, trace) && id in rt.requests && rt.requests[id].action == action
    requires rt.requests[id].status == Resolved && rt.requests[id].response == Some(ApproveForSession)
    ensures Licensed(trace, action)
  {
    var entry := Resolution(id, action, ApproveForSession, rt.requests[id].viaCache);
    assert entry in trace;
    var i :| 0 <= i < |trace| && trace[i] == entry;
    assert IsSessionApproval(trace[i], action);
  }

  /** The session after a cascade that left no request of the action pending. */
  lemma CachedSessionFits(s: Session, rt: State, trace: Trace, o: Observer, id: Id, action: string, saved: set<string>)
    requires CacheIsKnown(s.trace, s.autoApprove, saved) && AsksFit(s.runtime, s.asks) && AnswersFit(s)
    requires NonePendingCached(s.runtime, s.autoApprove)
    requires OnlySettles(s.runtime, rt) && rt.waits == s.runtime.waits && s.trace <= trace
    requires forall x | IsPending(rt, x) :: rt.requests[x].action != action
    requires Inv(rt) && TraceIsComplete(rt, trace) && CacheIsLicensed(trace) && Licensed(trace, action)
    requires AnswerFits(s.runtime, s.autoApprove, GrantedByResponse(id))
    ensures SessionInv(s.(runtime := rt, trace := trace, autoApprove := s.autoApprove + {action},
                          answers := s.answers[o := GrantedByResponse(id)]), saved)
  {
    forall a | a in s.autoApprove ensures a in saved || Licensed(trace, a) {
      if a !in saved { LicensedInLonger(s.trace, trace, a); }
    }
    SettlingKeepsPromises(s.runtime, rt, s.trace, s.autoApprove, GrantedByResponse(id));
    forall p | p in s.answers ensures AnswerFits(rt, s.autoApprove + {action}, s.answers[p]) {
      SettlingKeepsPromises(s.runtime, rt, s.trace, s.autoApprove, s.answers[p]);
    }
  }

  lemma ResolveKeepsSession(s: Session, id: Id, response: Response, feedback: string, saved: set<string>)
    requires SessionInv(s, saved)
    ensures var (rt, trace) := ResolveTraced(s.runtime, s.trace, id, response, feedback, false);
      SessionInv(s.(runtime := rt, trace := trace), saved)
  {
    var (rt, trace) := ResolveTraced(s.runtime, s.trace, id, response, feedback, false);
    ResolveOnlySettles(s.runtime, s.trace, id, response, feedback, false);
    forall a | a in s.autoApprove ensures a in saved || Licensed(trace, a) {
      if a !in saved { LicensedInLonger(s.trace, trace, a); }
    }
    SettlingKeepsPromises(s.runtime, rt, s.trace, s.autoApprove, GrantedByMode);
    forall p | p in s.answers ensures AnswerFits(rt, s.autoApprove, s.answers[p]) {
      SettlingKeepsPromises(s.runtime, rt, s.trace, s.autoApprove, s.answers[p]);
    }
  }

  lemma ProceedKeepsSession(s: Session, m: Move, saved: set<string>)
    requires SessionInv(s, saved) && MoveEnabled(s, m)
    ensures SessionInv(Proceed(s, m), saved)
  {
    match m
    case DoBegin(o, id, action, source, now) => BeginKeepsSession(s, o, id, action, source, now, saved);
    case DoFinish(o) => FinishKeepsSession(s, o, saved);
    case DoAbandon(o) => OtherKeepsSession(s.(asks := s.asks - {o}), DoLeave(o), saved);
    case DoOther(DoResolve(id, response, feedback, viaCache)) => ResolveKeepsSession(s, id, response, feedback, saved);
    case DoOther(e) => OtherKeepsSession(s, e, saved);
    case _ =>
  }

  lemma ConcludeSays(rt: State, trace: Trace, autoApprove: set<string>, id: Id, action: string)
    requires id in rt.requests && rt.requests[id].status != ApprovalProtocol.Pending
    requires rt.requests[id].status == Resolved ==> rt.requests[id].response.Some?
    ensures var r := rt.requests[id];
      var (rt', trace', autoApprove', answer) := Conclude(rt, trace, autoApprove, id, action, Expected(r));
      var cached := r.status == Resolved && r.response == Some(ApproveForSession);
      && (answer == GrantedByResponse(id) <==>
            r.status == Resolved && (r.response == Some(Approve) || r.response == Some(ApproveForSession)))
      && (answer == Denied(id, r.feedback) <==>
            r.status == Cancelled || (r.status == Resolved && r.response == Some(Reject)))
      && autoApprove' == autoApprove + (if cached then {action} else {})
      && (!cached ==> rt' == rt && trace' == trace)
  {
  }

  lemma FinishConcludes(s: Session, o: Observer)
    requires o in s.asks && Enabled(s.runtime, DoWake(o)) && s.asks[o].id in s.runtime.requests
    requires s.runtime.futures[s.runtime.waits[o].future].state == Expected(s.runtime.requests[s.asks[o].id])
    ensures var s', woken := Finish(s, o), Next(s.runtime, DoWake(o));
      && woken.requests == s.runtime.requests && o in s'.answers
      && Conclude(woken, s.trace, s.autoApprove, s.asks[o].id, s.asks[o].action, Expected(woken.requests[s.asks[o].id]))
         == (s'.runtime, s'.trace, s'.autoApprove, s'.answers[o])
      && s'.answers == s.answers[o := s'.answers[o]]
      && s'.asks == s.asks - {o} && s'.yolo == s.yolo && s'.afk == s.afk && s'.runtimeAfk == s.runtimeAfk
  {
  }

  /**
   The caller of a settled request is answered by its record and released. Only an approval for the session adds to the
   cache, and then no request of its action is left pending; nothing else about the session changes.
   */
  lemma FinishAnswers(s: Session, o: Observer, saved: set<string>)
    requires SessionInv(s, saved) && o in s.asks && Enabled(s.runtime, DoWake(o))
    ensures var s', id, action := Finish(s, o), s.asks[o].id, s.asks[o].action;
      var r := s.runtime.requests[id];
      var cached := r.status == Resolved && r.response == Some(ApproveForSession);
      && o !in s'.asks && o in s'.answers && s'.answers == s.answers[o := s'.answers[o]] && s'.asks == s.asks - {o}
      && (s'.answers[o] == GrantedByResponse(id) <==>
            r.status == Resolved && (r.response == Some(Approve) || r.response == Some(ApproveForSession)))
      && (s'.answers[o] == Denied(id, r.feedback) <==>
            r.status == Cancelled || (r.status == Resolved && r.response == Some(Reject)))
      && s'.autoApprove == s.autoApprove + (if cached then {action} else {})
      && (cached ==> forall x | IsPending(s'.runtime, x) :: s'.runtime.requests[x].action != action)
      && (!cached ==> s'.runtime.requests == s.runtime.requests && s'.trace == s.trace)
      && s'.yolo == s.yolo && s'.afk == s.afk && s'.runtimeAfk == s.runtimeAfk
  {
    WokenByRecord(s, o, saved);
    FinishConcludes(s, o);
    ConcludeSays(Next(s.runtime, DoWake(o)), s.trace, s.autoApprove, s.asks[o].id, s.asks[o].action);
    FinishKeepsSession(s, o, saved);
  }

  // ---------------------------------------------------------------- the listing of pending requests

  ghost predicate OldestFirst(rt: State, ids: seq<Id>) {
    forall i, j | 0 <= i < j < |ids| :: CreatedAt(rt, ids[i]) <= CreatedAt(rt, ids[j])
  }

  /** The ids created at one time, in order. */
  ghost function OfAge(rt: State, ids: seq<Id>, at: int): seq<Id> {
    if ids == [] then []
    else
      var before, last := OfAge(rt, ids[..|ids| - 1], at), ids[|ids| - 1];
      if CreatedAt(rt, last) == at then before + [last] else before
  }

  lemma {:induction false} InsertAscends(rt: State, sorted: seq<Id>, id: Id)
    requires OldestFirst(rt, sorted)
    ensures OldestFirst(rt, InsertByAge(rt, sorted, id))
  {
    if sorted != [] && CreatedAt(rt, sorted[|sorted| - 1]) > CreatedAt(rt, id) {
      var front, last := sorted[..|sorted| - 1], sorted[|sorted| - 1];
      var inner := InsertByAge(rt, front, id);
      InsertAscends(rt, front, id);
      forall i | 0 <= i < |inner| ensures CreatedAt(rt, inner[i]) <= CreatedAt(rt, last) {
        assert inner[i] in inner;
      }
    }
  }

  lemma {:induction false} InsertIsStable(rt: State, sorted: seq<Id>, id: Id, at: int)
    ensures OfAge(rt, InsertByAge(rt, sorted, id), at) == OfAge(rt, sorted + [id], at)
  {
    assert (sorted + [id])[..|sorted|] == sorted;
    if sorted != [] && CreatedAt(rt, sorted[|sorted| - 1]) > CreatedAt(rt, id) {
      var front, last := sorted[..|sorted| - 1], sorted[|sorted| - 1];
      InsertIsStable(rt, front, id, at);
      assert (front + [id])[..|front|] == front;
      var r := InsertByAge(rt, sorted, id);
      assert r[..|r| - 1] == InsertByAge(rt, front, id);
    }
  }

  /** Pending requests are listed oldest first, and those of one time in the order in which they were made. */
  lemma {:induction false} SortedByAge(rt: State, ids: seq<Id>, at: int)
    ensures OldestFirst(rt, SortByAge(rt, ids)) && OfAge(rt, SortByAge(rt, ids), at) == OfAge(rt, ids, at)
  {
    if ids != [] {
      var front, last := ids[..|ids| - 1], ids[|ids| - 1];
      SortedByAge(rt, front, at);
      InsertAscends(rt, SortByAge(rt, front), last);
      InsertIsStable(rt, SortByAge(rt, front), last, at);
      assert (SortByAge(rt, front) + [last])[..|SortByAge(rt, front)|] == SortByAge(rt, front);
    }
  }
}
