/**
 Refreshing one OAuth credential from many processes that share its file, with a best-effort file lock and a server
 that rotates refresh tokens (section 6 of RFC 6749). A refresh token is known by its generation: the server accepts
 exactly the current one, and accepting it makes the next generation current. Each event is one read or write of
 the shared file, the lock or the server, with the process-local work that follows it.
 */
module OAuthRefresh {
  import opened Wrappers

  type CallId = nat
  type ManagerId = nat
  type ProcessId = nat

  /** Stands for an empty refresh token. */
  const NO_TOKEN: nat := 0

  const MIN_REFRESH_THRESHOLD_SECONDS: real := 300.0
  const REFRESH_THRESHOLD_RATIO: real := 0.5
  const COOLDOWN_SECONDS: real := 300.0
  const REFRESH_ATTEMPTS: nat := 3

  datatype Token = Token(access: string, refresh: nat, expiresAt: real, expiresIn: real)

  /** The latest refresh token this process saw refused. */
  datatype Tombstone = Tombstone(refresh: nat, retryAfter: real)

  /** What one manager sees of its process and itself: the tombstone and the token whose access part is cached. */
  datatype Local = Local(rejected: Option<Tombstone>, cached: Option<Token>)

  // ---- Process-local decisions ----

  function Threshold(expiresIn: real): (r: real)
    ensures r >= MIN_REFRESH_THRESHOLD_SECONDS
    ensures expiresIn > 0.0 ==> 2.0 * r >= expiresIn
    ensures r == MIN_REFRESH_THRESHOLD_SECONDS || (expiresIn > 0.0 && 2.0 * r == expiresIn)
  {
    if expiresIn > 0.0 && expiresIn * REFRESH_THRESHOLD_RATIO > MIN_REFRESH_THRESHOLD_SECONDS
    then expiresIn * REFRESH_THRESHOLD_RATIO else MIN_REFRESH_THRESHOLD_SECONDS
  }

  /** A token whose expiry is known and far enough away. */
  predicate IsFresh(token: Token, now: real) {
    token.expiresAt != 0.0 && token.expiresAt - now >= Threshold(token.expiresIn)
  }

  /** Looking up the tombstone of a refresh token forgets a tombstone of any other one. */
  function Forget(l: Local, refresh: nat): Local {
    if refresh != NO_TOKEN && l.rejected.Some? && l.rejected.value.refresh != refresh then l.(rejected := None) else l
  }

  predicate IsSuppressed(l: Local, refresh: nat) {
    refresh != NO_TOKEN && l.rejected.Some? && l.rejected.value.refresh == refresh
  }

  predicate CanRetry(l: Local, refresh: nat, now: real) {
    IsSuppressed(l, refresh) ==> now >= l.rejected.value.retryAfter
  }

  function Cache(l: Local, token: Token): Local {
    l.(cached := if token.access == "" then None else Some(token))
  }

  /** The persisted token is cached unless it is suppressed. */
  function Observe(l: Local, token: Token): Local {
    var l' := Forget(l, token.refresh);
    if IsSuppressed(l', token.refresh) then l' else Cache(l', token)
  }

  /** Another instance's token replaces whatever this one believed. */
  function Adopt(l: Local, token: Token): Local {
    Cache(l.(rejected := None), token)
  }

  function Reject(l: Local, refresh: nat, now: real): Local {
    Local(if refresh == NO_TOKEN then l.rejected else Some(Tombstone(refresh, now + COOLDOWN_SECONDS)), None)
  }

  // ---- One call of `ensure_fresh` ----

  datatype Phase =
    | Loaded
    | Queued
    | Waiting(refresh: nat)
    | Locked(refresh: nat)
    | Posting(refresh: nat, locked: bool, attempt: nat)
    | Refreshed(token: Token, locked: bool)
    | Refused(refresh: nat, locked: bool)
    | Done(raised: bool)

  /** Loading the token and caching it, or giving up inside the cooldown of its tombstone. */
  function Load(l: Local, disk: Token, force: bool, now: real): (Local, Phase) {
    var l' := Observe(l, disk);
    if !IsSuppressed(l', disk.refresh) then (l', Loaded)
    else if CanRetry(l', disk.refresh, now) then (l'.(cached := None), Loaded)
    else (l'.(cached := None), Done(force))
  }

  /** The read before the in-process lock. */
  function Prepare(l: Local, disk: Token): (Local, Phase) {
    (Observe(l, disk), if disk.refresh == NO_TOKEN then Done(false) else Queued)
  }

  /** The read under the in-process lock, which decides whether to refresh at all. */
  function Check(l: Local, disk: Token, force: bool, now: real): (Local, Phase) {
    var l' := Observe(l, disk);
    if !force && IsFresh(disk, now) then (l', Done(false))
    else if disk.refresh == NO_TOKEN then (l', Done(false))
    else if !CanRetry(l', disk.refresh, now) then (l'.(cached := None), Done(force))
    else (l', Waiting(disk.refresh))
  }

  /** The read under the file lock: another process may have refreshed meanwhile. */
  function Recheck(l: Local, disk: Token, refresh: nat, force: bool, now: real): (Local, Phase) {
    if disk.refresh != refresh || (!force && IsFresh(disk, now)) then (Adopt(l, disk), Done(false))
    else (l, Posting(refresh, true, 0))
  }

  /** The read after a refusal: another instance may have rotated the token. */
  function Settle(l: Local, disk: Token, refresh: nat, force: bool, now: real): (Local, Phase) {
    if disk.refresh != refresh then (Adopt(l, disk), Done(false)) else (Reject(l, refresh, now), Done(force))
  }

  // ---- What a look at the file decides ----

  /** The expiry is unknown, less than five minutes away, or less than half a known lifetime away. */
  predicate RunsOut(token: Token, now: real) {
    || token.expiresAt == 0.0
    || token.expiresAt - now < 300.0
    || (token.expiresIn > 0.0 && 2.0 * (token.expiresAt - now) < token.expiresIn)
  }

  /** The process saw this very token refused, and may not try it again yet. */
  predicate CoolsDown(l: Local, refresh: nat, now: real) {
    l.rejected.Some? && l.rejected.value.refresh == refresh && now < l.rejected.value.retryAfter
  }

  /**
   A call goes on to the file lock exactly when the file holds a refresh token that is not cooling down and the call is
   forced or the token runs out. Otherwise it ends, with an error only if it was forced against the cooldown.
   */
  lemma CheckRefreshesIff(l: Local, disk: Token, force: bool, now: real)
    ensures var phase := Check(l, disk, force, now).1;
      var due := disk.refresh != 0 && (force || RunsOut(disk, now));
      && (phase == Waiting(disk.refresh) <==> due && !CoolsDown(l, disk.refresh, now))
      && (phase != Waiting(disk.refresh) ==> phase == Done(due && force))
  {
  }

  /** Under the file lock the server is asked exactly about the token waited for, if it is still due. */
  lemma RecheckRefreshesIff(l: Local, disk: Token, refresh: nat, force: bool, now: real)
    ensures var (l', phase) := Recheck(l, disk, refresh, force, now);
      && (phase == Posting(refresh, true, 0) <==> disk.refresh == refresh && (force || RunsOut(disk, now)))
      && (phase != Posting(refresh, true, 0) ==>
            phase == Done(false) && l'.rejected.None?
            && l'.cached == (if disk.access == "" then None else Some(disk)))
  {
  }

  /** The token in the file is the very one this process saw refused. */
  predicate Marked(l: Local, refresh: nat) {
    refresh != 0 && l.rejected.Some? && l.rejected.value.refresh == refresh
  }

  /** What a manager believes after a look at a file whose token it has no reason to distrust. */
  ghost predicate Believes(l': Local, l: Local, disk: Token) {
    && l'.cached == (if disk.access == "" then None else Some(disk))
    && l'.rejected == if disk.refresh == 0 then l.rejected else None
  }

  /**
   Every look takes the token of the file over and forgets what was refused before, unless this very token was refused:
   then the memory of it stays, and a call that gives up over it also gives up the cached token.
   */
  lemma LooksTakeTheFileOver(l: Local, disk: Token, force: bool, now: real)
    ensures var (l', phase) := Load(l, disk, force, now);
      && phase == (if Marked(l, disk.refresh) && now < l.rejected.value.retryAfter then Done(force) else Loaded)
      && (!Marked(l, disk.refresh) ==> Believes(l', l, disk))
      && (Marked(l, disk.refresh) ==> l'.cached.None? && l'.rejected == l.rejected)
    ensures var (l', phase) := Prepare(l, disk);
      && phase == (if disk.refresh == 0 then Done(false) else Queued)
      && (!Marked(l, disk.refresh) ==> Believes(l', l, disk))
      && (Marked(l, disk.refresh) ==> l' == l)
    ensures var (l', phase) := Check(l, disk, force, now);
      && (!Marked(l, disk.refresh) ==> Believes(l', l, disk))
      && (Marked(l, disk.refresh) ==>
            && l'.rejected == l.rejected
            && l'.cached == if (force || RunsOut(disk, now)) && now < l.rejected.value.retryAfter then None else l.cached)
  {
  }

  /** A refusal is believed only while the refused token is still in the file; otherwise the new token is adopted. */
  lemma RefusalIsSettled(l: Local, disk: Token, refresh: nat, force: bool, now: real)
    ensures var (l', phase) := Settle(l, disk, refresh, force, now);
      && (disk.refresh != refresh ==>
            && phase == Done(false) && l'.rejected.None?
            && l'.cached == (if disk.access == "" then None else Some(disk)))
      && (disk.refresh == refresh ==>
            && phase == Done(force) && l'.cached.None?
            && l'.rejected == if refresh == 0 then l.rejected else Some(Tombstone(refresh, now + 300.0)))
  {
  }

  /** For five minutes after a refusal its process leaves the token alone, and then it may try again. */
  lemma RefusedTokenCoolsDown(l: Local, disk: Token, force: bool, now: real, later: real)
    requires disk.refresh != 0
    ensures var refused := Settle(l, disk, disk.refresh, force, now);
      && refused.1 == Done(force) && refused.0.cached.None?
      && Load(refused.0, disk, force, later).1 == (if later - now < 300.0 then Done(force) else Loaded)
      && Load(refused.0, disk, force, later).0.cached.None?
      && Check(refused.0, disk, true, later).1 == (if later - now < 300.0 then Done(true) else Waiting(disk.refresh))
  {
  }

  // ---- The shared system ----

  datatype Call = Call(manager: ManagerId, process: ProcessId, force: bool, phase: Phase)

  datatype State = State(
    current: nat,
    disk: Token,
    holder: Option<CallId>,
    calls: map<CallId, Call>,
    rejected: map<ProcessId, Tombstone>,
    cached: map<ManagerId, Token>,
    now: real)

  datatype Event =
    | DoStart(call: CallId, manager: ManagerId, process: ProcessId, force: bool)
    | DoPrepare(call: CallId)
    | DoCheck(call: CallId)
    | DoLock(call: CallId)
    | DoFallBack(call: CallId)
    | DoRecheck(call: CallId)
    | DoAnswer(call: CallId, access: string, expiresIn: real)
    | DoFail(call: CallId, retryable: bool)
    | DoSave(call: CallId)
    | DoSettle(call: CallId)
    | DoDrop(call: CallId)
    | DoTick(seconds: real)

  function Opened(disk: Token, now: real): State {
    State(disk.refresh, disk, None, map[], map[], map[], now)
  }

  predicate Enabled(s: State, e: Event) {
    match e
    case DoStart(c, _, _, _) => c !in s.calls
    case DoPrepare(c) => c in s.calls && s.calls[c].phase.Loaded?
    case DoCheck(c) => c in s.calls && s.calls[c].phase.Queued?
    case DoLock(c) => c in s.calls && s.calls[c].phase.Waiting? && s.holder.None?
    case DoFallBack(c) => c in s.calls && s.calls[c].phase.Waiting?
    case DoRecheck(c) => c in s.calls && s.calls[c].phase.Locked?
    case DoAnswer(c, _, _) => c in s.calls && s.calls[c].phase.Posting?
    case DoFail(c, _) => c in s.calls && s.calls[c].phase.Posting?
    case DoSave(c) => c in s.calls && s.calls[c].phase.Refreshed?
    case DoSettle(c) => c in s.calls && s.calls[c].phase.Refused?
    case DoDrop(c) => c in s.calls && !s.calls[c].phase.Done?
    case DoTick(seconds) => seconds >= 0.0
  }

  function Get<K, V>(m: map<K, V>, k: K): Option<V> {
    if k in m then Some(m[k]) else None
  }

  function Put<K, V>(m: map<K, V>, k: K, v: Option<V>): map<K, V> {
    if v.Some? then m[k := v.value] else m - {k}
  }

  function LocalOf(s: State, call: Call): Local {
    Local(Get(s.rejected, call.process), Get(s.cached, call.manager))
  }

  /** Moves a call to a phase with a new local view; a call that is done releases the file lock if it holds it. */
  function Advance(s: State, c: CallId, call: Call, result: (Local, Phase)): State {
    s.(calls := s.calls[c := call.(phase := result.1)],
       rejected := Put(s.rejected, call.process, result.0.rejected),
       cached := Put(s.cached, call.manager, result.0.cached),
       holder := if result.1.Done? && s.holder == Some(c) then None else s.holder)
  }

  function Next(s: State, e: Event): State
    requires Enabled(s, e)
  {
    match e
    case DoStart(c, manager, process, force) =>
      var call := Call(manager, process, force, Loaded);
      Advance(s, c, call, Load(LocalOf(s, call), s.disk, force, s.now))
    case DoPrepare(c) => Advance(s, c, s.calls[c], Prepare(LocalOf(s, s.calls[c]), s.disk))
    case DoCheck(c) => Advance(s, c, s.calls[c], Check(LocalOf(s, s.calls[c]), s.disk, s.calls[c].force, s.now))
    case DoLock(c) =>
      s.(holder := Some(c), calls := s.calls[c := s.calls[c].(phase := Locked(s.calls[c].phase.refresh))])
    case DoFallBack(c) =>
      s.(calls := s.calls[c := s.calls[c].(phase := Posting(s.calls[c].phase.refresh, false, 0))])
    case DoRecheck(c) =>
      Advance(s, c, s.calls[c],
        Recheck(LocalOf(s, s.calls[c]), s.disk, s.calls[c].phase.refresh, s.calls[c].force, s.now))
    case DoAnswer(c, access, expiresIn) =>
      var Posting(refresh, locked, _) := s.calls[c].phase;
      if refresh == s.current
      then s.(current := s.current + 1, calls := s.calls[c := s.calls[c].(
                phase := Refreshed(Token(access, s.current + 1, s.now + expiresIn, expiresIn), locked))])
      else s.(calls := s.calls[c := s.calls[c].(phase := Refused(refresh, locked))])
    case DoFail(c, retryable) =>
      var Posting(refresh, locked, attempt) := s.calls[c].phase;
      if retryable && attempt + 1 < REFRESH_ATTEMPTS
      then s.(calls := s.calls[c := s.calls[c].(phase := Posting(refresh, locked, attempt + 1))])
      else Advance(s, c, s.calls[c], (LocalOf(s, s.calls[c]), Done(s.calls[c].force)))
    case DoSave(c) =>
      var token := s.calls[c].phase.token;
      Advance(s, c, s.calls[c], (Adopt(LocalOf(s, s.calls[c]), token), Done(false))).(disk := token)
    case DoSettle(c) =>
      Advance(s, c, s.calls[c],
        Settle(LocalOf(s, s.calls[c]), s.disk, s.calls[c].phase.refresh, s.calls[c].force, s.now))
    case DoDrop(c) => Advance(s, c, s.calls[c], (LocalOf(s, s.calls[c]), Done(true)))
    case DoTick(seconds) => s.(now := s.now + seconds)
  }

  /** A failed request is repeated at most twice, if it may be repeated at all. */
  lemma FailureIsRetriedTwice(s: State, c: CallId, retryable: bool)
    requires Enabled(s, DoFail(c, retryable))
    ensures var phase, before := Next(s, DoFail(c, retryable)).calls[c].phase, s.calls[c].phase;
      && (retryable && before.attempt < 2 ==>
            phase == Posting(before.refresh, before.locked, before.attempt + 1))
      && (!retryable || before.attempt >= 2 ==> phase == Done(s.calls[c].force))
  {
  }

  /** What a call learns is what its manager believes and its process remembers from then on, and nobody else's view. */
  lemma ViewIsKept(s: State, c: CallId, call: Call, result: (Local, Phase))
    ensures var s' := Advance(s, c, call, result);
      && LocalOf(s', call) == result.0 && c in s'.calls && s'.calls[c] == call.(phase := result.1)
      && (forall m | m != call.manager :: m in s'.cached <==> m in s.cached)
      && (forall m | m != call.manager && m in s.cached :: s'.cached[m] == s.cached[m])
      && (forall p | p != call.process :: p in s'.rejected <==> p in s.rejected)
      && (forall p | p != call.process && p in s.rejected :: s'.rejected[p] == s.rejected[p])
      && (forall d | d != c :: d in s'.calls <==> d in s.calls)
      && (forall d | d != c && d in s.calls :: s'.calls[d] == s.calls[d])
  {
  }

  /** Saving a refreshed token puts it into the file and into the manager's cache, and clears the process's tombstone. */
  lemma SavingTellsEverybody(s: State, c: CallId)
    requires Enabled(s, DoSave(c))
    ensures var s', call, token := Next(s, DoSave(c)), s.calls[c], s.calls[c].phase.token;
      && s'.disk == token && s'.calls[c].phase == Done(false) && call.process !in s'.rejected
      && (call.manager in s'.cached <==> token.access != "")
      && (token.access != "" ==> s'.cached[call.manager] == token)
      && (s.holder == Some(c) ==> s'.holder.None?)
  {
    var call := s.calls[c];
    ViewIsKept(s, c, call, (Adopt(LocalOf(s, call), call.phase.token), Done(false)));
  }

  /** A dropped call ends in an error and lets go of the lock; neither it nor the passing of time touches the file. */
  lemma DropsAndTicks(s: State, c: CallId, seconds: real)
    ensures Enabled(s, DoDrop(c)) ==>
      var s' := Next(s, DoDrop(c));
      && s'.calls == s.calls[c := s.calls[c].(phase := Done(true))] && s'.disk == s.disk && s'.current == s.current
      && s'.holder == if s.holder == Some(c) then None else s.holder
    ensures Enabled(s, DoTick(seconds)) ==> Next(s, DoTick(seconds)) == s.(now := s.now + seconds)
  {
  }

  /** A rotation is lost when the call that was answered ends before it saved the new token. */
  predicate LosesRotation(s: State, e: Event) {
    e.DoDrop? && e.call in s.calls && s.calls[e.call].phase.Refreshed?
  }

  predicate Allowed(s: State, e: Event) {
    Enabled(s, e) && !LosesRotation(s, e)
  }

  /** Runs of enabled events. */
  predicate Runs(s: State, events: seq<Event>)
    decreases |events|
  {
    events == [] || (Enabled(s, events[0]) && Runs(Next(s, events[0]), events[1..]))
  }

  predicate LosesNothing(s: State, events: seq<Event>)
    requires Runs(s, events)
    decreases |events|
  {
    events == [] || (!LosesRotation(s, events[0]) && LosesNothing(Next(s, events[0]), events[1..]))
  }

  function Run(s: State, events: seq<Event>): State
    requires Runs(s, events)
    decreases |events|
  {
    if events == [] then s else Run(Next(s, events[0]), events[1..])
  }

  /** The refresh tokens the server was asked to exchange and answered about, in order. */
  function Presented(s: State, events: seq<Event>): seq<nat>
    requires Runs(s, events)
    decreases |events|
  {
    if events == [] then []
    else if events[0].DoAnswer? then
      [s.calls[events[0].call].phase.refresh] + Presented(Next(s, events[0]), events[1..])
    else Presented(Next(s, events[0]), events[1..])
  }

  // ---- What every run keeps ----

  /** The refresh token a call has taken from the file and not yet dealt with. */
  function Claimed(p: Phase): (r: nat) {
    match p
    case Waiting(refresh) => refresh
    case Locked(refresh) => refresh
    case Posting(refresh, _, _) => refresh
    case Refused(refresh, _) => refresh
    case _ => NO_TOKEN
  }

  ghost predicate HoldsRotation(s: State, c: CallId) {
    c in s.calls && s.calls[c].phase.Refreshed?
  }

  /** Without a rotation in flight the file holds the server's token; with one, exactly one call holds the successor. */
  ghost predicate FileFollowsServer(s: State) {
    && s.disk.refresh <= s.current <= s.disk.refresh + 1
    && (forall c | HoldsRotation(s, c) ::
          s.calls[c].phase.token.refresh == s.current == s.disk.refresh + 1)
    && (forall c, d | HoldsRotation(s, c) && HoldsRotation(s, d) :: c == d)
    && (s.current == s.disk.refresh + 1 ==> exists c :: HoldsRotation(s, c))
  }

  ghost predicate ClaimsComeFromFile(s: State) {
    && (forall c | c in s.calls :: Claimed(s.calls[c].phase) <= s.disk.refresh)
    && (forall c | c in s.calls && s.calls[c].phase.Posting? :: s.calls[c].phase.refresh != NO_TOKEN)
    && (forall c | c in s.calls && s.calls[c].phase.Waiting? :: s.calls[c].phase.refresh != NO_TOKEN)
    && (forall c | c in s.calls && s.calls[c].phase.Locked? :: s.calls[c].phase.refresh != NO_TOKEN)
  }

  /** A refused token, and a tombstone, is a token the server has already consumed. */
  ghost predicate RefusalsAreFinal(s: State) {
    && (forall c | c in s.calls && s.calls[c].phase.Refused? :: s.calls[c].phase.refresh < s.current)
    && (forall p | p in s.rejected :: s.rejected[p].refresh < s.current)
  }

  ghost predicate CachesComeFromFile(s: State) {
    forall m | m in s.cached :: s.cached[m].refresh <= s.disk.refresh && s.cached[m].access != ""
  }

  ghost predicate UsesLock(p: Phase) {
    match p
    case Locked(_) => true
    case Posting(_, locked, _) => locked
    case Refreshed(_, locked) => locked
    case Refused(_, locked) => locked
    case _ => false
  }

  ghost predicate LockIsExclusive(s: State) {
    && (forall c | c in s.calls && UsesLock(s.calls[c].phase) :: s.holder == Some(c))
    && (s.holder.Some? ==> s.holder.value in s.calls && UsesLock(s.calls[s.holder.value].phase))
  }

  ghost predicate Inv(s: State) {
    FileFollowsServer(s) && ClaimsComeFromFile(s) && RefusalsAreFinal(s) && CachesComeFromFile(s) && LockIsExclusive(s)
  }

  // ---- Every step keeps it ----

  /** What a local decision does to the tombstone and the cache, whichever decision it is. */
  ghost predicate LocalStep(l: Local, l': Local, disk: nat, dead: nat) {
    && (l'.rejected == l.rejected || l'.rejected.None? || l'.rejected.value.refresh == dead)
    && (l'.cached == l.cached || l'.cached.None? || (l'.cached.value.refresh == disk && l'.cached.value.access != ""))
  }

  lemma DecisionsAreLocalSteps(l: Local, disk: Token, refresh: nat, force: bool, now: real)
    ensures LocalStep(l, Load(l, disk, force, now).0, disk.refresh, refresh)
    ensures LocalStep(l, Prepare(l, disk).0, disk.refresh, refresh)
    ensures LocalStep(l, Check(l, disk, force, now).0, disk.refresh, refresh)
    ensures LocalStep(l, Recheck(l, disk, refresh, force, now).0, disk.refresh, refresh)
    ensures LocalStep(l, Settle(l, disk, refresh, force, now).0, disk.refresh, refresh)
    ensures LocalStep(l, Adopt(l, disk), disk.refresh, refresh)
  {
  }

  lemma AdvanceKeepsTables(s: State, c: CallId, call: Call, result: (Local, Phase), dead: nat)
    requires RefusalsAreFinal(s) && CachesComeFromFile(s)
    requires LocalStep(LocalOf(s, call), result.0, s.disk.refresh, dead)
    requires result.0.rejected == LocalOf(s, call).rejected || result.0.rejected.None? || dead < s.current
    requires !result.1.Refused?
    ensures RefusalsAreFinal(Advance(s, c, call, result)) && CachesComeFromFile(Advance(s, c, call, result))
  {
  }

  lemma AdvanceKeepsFile(s: State, c: CallId, call: Call, result: (Local, Phase))
    requires FileFollowsServer(s) && ClaimsComeFromFile(s) && LockIsExclusive(s)
    requires !HoldsRotation(s, c) && !result.1.Refreshed?
    requires Claimed(result.1) <= s.disk.refresh
    requires (result.1.Posting? || result.1.Waiting? || result.1.Locked?) ==> result.1.refresh != NO_TOKEN
    requires UsesLock(result.1) ==> s.holder == Some(c)
    requires s.holder == Some(c) ==> UsesLock(result.1) || result.1.Done?
    ensures var s' := Advance(s, c, call, result);
      FileFollowsServer(s') && ClaimsComeFromFile(s') && LockIsExclusive(s')
  {
    var s' := Advance(s, c, call, result);
    forall d ensures HoldsRotation(s', d) <==> HoldsRotation(s, d) {
    }
  }

  /** The steps that end in `Advance` without touching the file. */
  lemma AdvanceKeepsInv(s: State, c: CallId, call: Call, result: (Local, Phase), dead: nat)
    requires Inv(s)
    requires LocalStep(LocalOf(s, call), result.0, s.disk.refresh, dead)
    requires result.0.rejected == LocalOf(s, call).rejected || result.0.rejected.None? || dead < s.current
    requires !HoldsRotation(s, c) && !result.1.Refreshed? && !result.1.Refused?
    requires Claimed(result.1) <= s.disk.refresh
    requires (result.1.Posting? || result.1.Waiting? || result.1.Locked?) ==> result.1.refresh != NO_TOKEN
    requires UsesLock(result.1) ==> s.holder == Some(c)
    requires s.holder == Some(c) ==> UsesLock(result.1) || result.1.Done?
    ensures Inv(Advance(s, c, call, result))
  {
    AdvanceKeepsTables(s, c, call, result, dead);
    AdvanceKeepsFile(s, c, call, result);
  }

  lemma StartKeepsInv(s: State, c: CallId, manager: ManagerId, process: ProcessId, force: bool)
    requires Inv(s) && c !in s.calls
    ensures Inv(Next(s, DoStart(c, manager, process, force)))
  {
    var call := Call(manager, process, force, Loaded);
    DecisionsAreLocalSteps(LocalOf(s, call), s.disk, 0, force, s.now);
    AdvanceKeepsInv(s, c, call, Load(LocalOf(s, call), s.disk, force, s.now), 0);
  }

  lemma PrepareKeepsInv(s: State, c: CallId)
    requires Inv(s) && Enabled(s, DoPrepare(c))
    ensures Inv(Next(s, DoPrepare(c)))
  {
    var call := s.calls[c];
    DecisionsAreLocalSteps(LocalOf(s, call), s.disk, 0, call.force, s.now);
    AdvanceKeepsInv(s, c, call, Prepare(LocalOf(s, call), s.disk), 0);
  }

  lemma CheckKeepsInv(s: State, c: CallId)
    requires Inv(s) && Enabled(s, DoCheck(c))
    ensures Inv(Next(s, DoCheck(c)))
  {
    var call := s.calls[c];
    DecisionsAreLocalSteps(LocalOf(s, call), s.disk, 0, call.force, s.now);
    AdvanceKeepsInv(s, c, call, Check(LocalOf(s, call), s.disk, call.force, s.now), 0);
  }

  lemma RecheckKeepsInv(s: State, c: CallId)
    requires Inv(s) && Enabled(s, DoRecheck(c))
    ensures Inv(Next(s, DoRecheck(c)))
  {
    var call, refresh := s.calls[c], s.calls[c].phase.refresh;
    DecisionsAreLocalSteps(LocalOf(s, call), s.disk, refresh, call.force, s.now);
    AdvanceKeepsInv(s, c, call, Recheck(LocalOf(s, call), s.disk, refresh, call.force, s.now), 0);
  }

  lemma SettleKeepsInv(s: State, c: CallId)
    requires Inv(s) && Enabled(s, DoSettle(c))
    ensures Inv(Next(s, DoSettle(c)))
  {
    var call, refresh := s.calls[c], s.calls[c].phase.refresh;
    DecisionsAreLocalSteps(LocalOf(s, call), s.disk, refresh, call.force, s.now);
    AdvanceKeepsInv(s, c, call, Settle(LocalOf(s, call), s.disk, refresh, call.force, s.now), refresh);
  }

  lemma DropKeepsInv(s: State, c: CallId)
    requires Inv(s) && Allowed(s, DoDrop(c))
    ensures Inv(Next(s, DoDrop(c)))
  {
    AdvanceKeepsInv(s, c, s.calls[c], (LocalOf(s, s.calls[c]), Done(true)), 0);
  }

  lemma TickKeepsInv(s: State, seconds: real)
    requires Inv(s) && seconds >= 0.0
    ensures Inv(Next(s, DoTick(seconds)))
  {
    forall c ensures HoldsRotation(Next(s, DoTick(seconds)), c) <==> HoldsRotation(s, c) {
    }
  }

  lemma LockKeepsInv(s: State, c: CallId)
    requires Inv(s) && Enabled(s, DoLock(c))
    ensures Inv(Next(s, DoLock(c)))
  {
    forall d ensures HoldsRotation(Next(s, DoLock(c)), d) <==> HoldsRotation(s, d) {
    }
  }

  /** A call that posts the token it has taken, with the lock only if it is the holder. */
  lemma PostingKeepsInv(s: State, c: CallId, p: Phase)
    requires Inv(s) && c in s.calls && (s.calls[c].phase.Waiting? || s.calls[c].phase.Posting?) && p.Posting?
    requires p.refresh == s.calls[c].phase.refresh && (p.locked <==> UsesLock(s.calls[c].phase))
    ensures Inv(s.(calls := s.calls[c := s.calls[c].(phase := p)]))
  {
    var s' := s.(calls := s.calls[c := s.calls[c].(phase := p)]);
    forall d ensures HoldsRotation(s', d) <==> HoldsRotation(s, d) {
    }
  }

  lemma FallBackKeepsInv(s: State, c: CallId)
    requires Inv(s) && Enabled(s, DoFallBack(c))
    ensures Inv(Next(s, DoFallBack(c)))
  {
    PostingKeepsInv(s, c, Posting(s.calls[c].phase.refresh, false, 0));
  }

  lemma RetryKeepsInv(s: State, c: CallId)
    requires Inv(s) && Enabled(s, DoFail(c, true)) && s.calls[c].phase.attempt + 1 < REFRESH_ATTEMPTS
    ensures Inv(Next(s, DoFail(c, true)))
  {
    var p := s.calls[c].phase.(attempt := s.calls[c].phase.attempt + 1);
    assert Next(s, DoFail(c, true)) == s.(calls := s.calls[c := s.calls[c].(phase := p)]);
    PostingKeepsInv(s, c, p);
  }

  lemma FailKeepsInv(s: State, c: CallId, retryable: bool)
    requires Inv(s) && Enabled(s, DoFail(c, retryable))
    ensures Inv(Next(s, DoFail(c, retryable)))
  {
    if retryable && s.calls[c].phase.attempt + 1 < REFRESH_ATTEMPTS {
      RetryKeepsInv(s, c);
    } else {
      AdvanceKeepsInv(s, c, s.calls[c], (LocalOf(s, s.calls[c]), Done(s.calls[c].force)), 0);
    }
  }

  lemma AcceptKeepsInv(s: State, c: CallId, access: string, expiresIn: real)
    requires Inv(s) && Enabled(s, DoAnswer(c, access, expiresIn)) && s.calls[c].phase.refresh == s.current
    ensures Inv(Next(s, DoAnswer(c, access, expiresIn)))
  {
    var s' := Next(s, DoAnswer(c, access, expiresIn));
    assert forall d :: !HoldsRotation(s, d);
    forall d ensures HoldsRotation(s', d) <==> d == c {
      assert d != c && HoldsRotation(s', d) ==> HoldsRotation(s, d);
    }
    assert HoldsRotation(s', c);
  }

  lemma RefuseKeepsInv(s: State, c: CallId, access: string, expiresIn: real)
    requires Inv(s) && Enabled(s, DoAnswer(c, access, expiresIn)) && s.calls[c].phase.refresh != s.current
    ensures Inv(Next(s, DoAnswer(c, access, expiresIn)))
  {
    forall d ensures HoldsRotation(Next(s, DoAnswer(c, access, expiresIn)), d) <==> HoldsRotation(s, d) {
    }
  }

  lemma SaveKeepsInv(s: State, c: CallId)
    requires Inv(s) && Enabled(s, DoSave(c))
    ensures Inv(Next(s, DoSave(c)))
  {
    var s', token := Next(s, DoSave(c)), s.calls[c].phase.token;
    assert HoldsRotation(s, c);
    forall d ensures !HoldsRotation(s', d) {
      assert d != c && HoldsRotation(s', d) ==> HoldsRotation(s, d);
    }
  }

  lemma NextKeepsInv(s: State, e: Event)
    requires Inv(s) && Allowed(s, e)
    ensures Inv(Next(s, e))
    ensures s.disk.refresh <= Next(s, e).disk.refresh
  {
    match e {
      case DoStart(c, manager, process, force) => StartKeepsInv(s, c, manager, process, force);
      case DoPrepare(c) => PrepareKeepsInv(s, c);
      case DoCheck(c) => CheckKeepsInv(s, c);
      case DoLock(c) => LockKeepsInv(s, c);
      case DoFallBack(c) => FallBackKeepsInv(s, c);
      case DoRecheck(c) => RecheckKeepsInv(s, c);
      case DoAnswer(c, access, expiresIn) =>
        if s.calls[c].phase.refresh == s.current {
          AcceptKeepsInv(s, c, access, expiresIn);
        } else {
          RefuseKeepsInv(s, c, access, expiresIn);
        }
      case DoFail(c, retryable) => FailKeepsInv(s, c, retryable);
      case DoSave(c) => SaveKeepsInv(s, c); assert HoldsRotation(s, c);
      case DoSettle(c) => SettleKeepsInv(s, c);
      case DoDrop(c) => DropKeepsInv(s, c);
      case DoTick(seconds) => TickKeepsInv(s, seconds);
    }
  }

  lemma {:induction false} RunKeepsInv(s: State, events: seq<Event>)
    requires Inv(s) && Runs(s, events) && LosesNothing(s, events)
    ensures Inv(Run(s, events))
    ensures s.disk.refresh <= Run(s, events).disk.refresh
    decreases |events|
  {
    if events != [] {
      NextKeepsInv(s, events[0]);
      RunKeepsInv(Next(s, events[0]), events[1..]);
    }
  }

  lemma OpenedIsInv(disk: Token, now: real)
    ensures Inv(Opened(disk, now))
  {
  }
}
