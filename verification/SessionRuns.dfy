/** Whole runs of a session: what the session cache and every answer rest on, in every interleaving. */
module SessionRuns {
  import opened ApprovalProtocol
  import opened SessionApproval

  predicate EnabledMoves(s: Session, moves: seq<Move>)
    decreases |moves|
  {
    moves != [] ==> MoveEnabled(s, moves[0]) && EnabledMoves(Proceed(s, moves[0]), moves[1..])
  }

  function ProceedAll(s: Session, moves: seq<Move>): Session
    requires EnabledMoves(s, moves)
    decreases |moves|
  {
    if moves == [] then s else ProceedAll(Proceed(s, moves[0]), moves[1..])
  }

  lemma {:induction false} MovesKeepSession(s: Session, moves: seq<Move>, saved: set<string>)
    requires SessionInv(s, saved) && EnabledMoves(s, moves)
    ensures SessionInv(ProceedAll(s, moves), saved)
    decreases |moves|
  {
    if moves != [] {
      ProceedKeepsSession(s, moves[0], saved);
      MovesKeepSession(Proceed(s, moves[0]), moves[1..], saved);
    }
  }

  lemma {:induction false} MovesSplit(s: Session, moves: seq<Move>, k: nat)
    requires EnabledMoves(s, moves) && k < |moves|
    ensures EnabledMoves(s, moves[..k]) && EnabledMoves(s, moves[..k + 1])
    ensures MoveEnabled(ProceedAll(s, moves[..k]), moves[k])
    ensures ProceedAll(s, moves[..k + 1]) == Proceed(ProceedAll(s, moves[..k]), moves[k])
    decreases |moves|
  {
    if k > 0 {
      MovesSplit(Proceed(s, moves[0]), moves[1..], k - 1);
      assert moves[1..][..k - 1] == moves[..k][1..] && moves[1..][..k] == moves[..k + 1][1..];
    }
  }

  /** The move at `k` begins the request of `o`, in a session whose modes or whose cache grant it. */
  ghost predicate GrantsAt(s: Session, moves: seq<Move>, k: nat, o: Observer, answer: Answer)
    requires k < |moves| && EnabledMoves(s, moves[..k])
  {
    var t := ProceedAll(s, moves[..k]);
    && moves[k].DoBegin? && moves[k].observer == o
    && (answer == GrantedByMode ==> t.yolo || t.afk || t.runtimeAfk)
    && (answer.GrantedByCache? ==>
          !t.yolo && !t.afk && !t.runtimeAfk && moves[k].action == answer.action && answer.action in t.autoApprove)
  }

  lemma OnlyBeginGrants(s: Session, m: Move, o: Observer)
    requires MoveEnabled(s, m) && o in Proceed(s, m).answers
    requires Proceed(s, m).answers[o] == GrantedByMode || Proceed(s, m).answers[o].GrantedByCache?
    ensures (o in s.answers && s.answers[o] == Proceed(s, m).answers[o]) || (m.DoBegin? && m.observer == o)
  {
  }

  /** Whoever is granted a request at once was granted it by the modes or the cache of the session at that time. */
  lemma {:induction false} GrantsWereDue(s: Session, moves: seq<Move>, o: Observer)
    requires EnabledMoves(s, moves) && s.answers == map[]
    requires o in ProceedAll(s, moves).answers
    requires ProceedAll(s, moves).answers[o] == GrantedByMode || ProceedAll(s, moves).answers[o].GrantedByCache?
    ensures exists k :: 0 <= k < |moves| && EnabledMoves(s, moves[..k]) &&
                        GrantsAt(s, moves, k, o, ProceedAll(s, moves).answers[o])
    decreases |moves|
  {
    if moves != [] {
      var last := |moves| - 1;
      var before, answer := moves[..last], ProceedAll(s, moves).answers[o];
      MovesSplit(s, moves, last);
      assert moves[..last + 1] == moves;
      var t := ProceedAll(s, before);
      OnlyBeginGrants(t, moves[last], o);
      if o in t.answers && t.answers[o] == answer {
        GrantsWereDue(s, before, o);
        var k :| 0 <= k < |before| && EnabledMoves(s, before[..k]) && GrantsAt(s, before, k, o, answer);
        assert before[..k] == moves[..k];
        assert GrantsAt(s, moves, k, o, answer);
      } else {
        var DoBegin(_, id, action, source, now) := moves[last];
        BeginAnswers(t, o, id, action, source, now);
        assert GrantsAt(s, moves, last, o, answer);
      }
    }
  }

  /**
   In every reachable state: no pending request has an action that is approved automatically, and every resolution
   through the session cache comes after some request of the same action was approved for the session.
   */
  lemma SessionCacheIsSafe(yolo: bool, afk: bool, runtimeAfk: bool, saved: set<string>, moves: seq<Move>)
    requires EnabledMoves(Opened(yolo, afk, runtimeAfk, saved), moves)
    ensures var s := ProceedAll(Opened(yolo, afk, runtimeAfk, saved), moves);
      && (forall id | IsPending(s.runtime, id) :: s.runtime.requests[id].action !in s.autoApprove)
      && (forall i | 0 <= i < |s.trace| && s.trace[i].viaCache ::
            exists j | 0 <= j < i :: IsSessionApproval(s.trace[j], s.trace[i].action))
      && (forall id | id in s.runtime.requests && s.runtime.requests[id].status == Resolved &&
                      s.runtime.requests[id].viaCache ::
            Licensed(s.trace, s.runtime.requests[id].action))
  {
    InitialInv();
    MovesKeepSession(Opened(yolo, afk, runtimeAfk, saved), moves, saved);
    var s := ProceedAll(Opened(yolo, afk, runtimeAfk, saved), moves);
    forall i | 0 <= i < |s.trace| && s.trace[i].viaCache
      ensures exists j | 0 <= j < i :: IsSessionApproval(s.trace[j], s.trace[i].action)
    {
      var j :| 0 <= j < |s.trace[..i]| && IsSessionApproval(s.trace[..i][j], s.trace[i].action);
      assert IsSessionApproval(s.trace[j], s.trace[i].action);
    }
    forall id | id in s.runtime.requests && s.runtime.requests[id].status == Resolved && s.runtime.requests[id].viaCache
      ensures Licensed(s.trace, s.runtime.requests[id].action)
    {
      var r := s.runtime.requests[id];
      var i :| 0 <= i < |s.trace| && s.trace[i] == Resolution(id, r.action, r.response.value, true);
      LicensedInLonger(s.trace[..i], s.trace, r.action);
    }
  }

  /**
   A request is granted only by an automatic mode, by the cache, or by a record resolved with an approval; it is
   denied only by a rejected or cancelled record, with that record's feedback.
   */
  lemma AnswersComeFromRecords(yolo: bool, afk: bool, runtimeAfk: bool, saved: set<string>, moves: seq<Move>, o: Observer)
    requires EnabledMoves(Opened(yolo, afk, runtimeAfk, saved), moves)
    requires o in ProceedAll(Opened(yolo, afk, runtimeAfk, saved), moves).answers
    ensures var s := ProceedAll(Opened(yolo, afk, runtimeAfk, saved), moves);
      && AnswerFits(s.runtime, s.autoApprove, s.answers[o])
      && (s.answers[o].GrantedByCache? ==> s.answers[o].action in saved || Licensed(s.trace, s.answers[o].action))
  {
    InitialInv();
    MovesKeepSession(Opened(yolo, afk, runtimeAfk, saved), moves, saved);
  }
}
