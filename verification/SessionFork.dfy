/**
 Forking a session at a turn: both journals are cut after the chosen turn. Turns are numbered from 0; the scan
 starts with turn number -1 and counts a turn when it begins.
 */
module SessionFork {
  import opened Wrappers
  import opened Text
  import opened Messages
  import opened ContextLog
  import opened ContextOps

  // ---------------------------------------------------------------- the wire journal

  datatype InputPart = TextDict(text: string) | PlainText(text: string) | OtherPart
  datatype UserInput = Whole(text: string) | Parts(parts: seq<InputPart>)

  /** `BlankLine` and `MalformedLine` are skipped by every reader. */
  datatype WireLine =
    | BlankLine
    | MalformedLine
    | Metadata(header: string)
    | TurnBegin(input: UserInput)
    | TurnEnd
    | OtherEvent(payload: string)

  datatype TurnInfo = TurnInfo(index: int, userText: string)

  datatype ForkError = WireMissing | TurnOutOfRange

  function TextsOf(parts: seq<InputPart>): seq<string> {
    if parts == [] then []
    else if parts[0].OtherPart? then TextsOf(parts[1..])
    else [parts[0].text] + TextsOf(parts[1..])
  }

  function JoinWithSpace(texts: seq<string>): string {
    if texts == [] then ""
    else if |texts| == 1 then texts[0]
    else texts[0] + " " + JoinWithSpace(texts[1..])
  }

  lemma {:induction false} TextsOfConcat(a: seq<InputPart>, b: seq<InputPart>)
    ensures TextsOf(a + b) == TextsOf(a) + TextsOf(b)
  {
    if a == [] {
      assert a + b == b;
    } else {
      assert (a + b)[1..] == a[1..] + b;
      TextsOfConcat(a[1..], b);
    }
  }

  /** Joining puts exactly one space between texts, and none at the ends. */
  lemma {:induction false} JoinIsSpaced(a: seq<string>, b: seq<string>)
    ensures forall text :: JoinWithSpace([text]) == text
    ensures a == [] ==> JoinWithSpace(a) == ""
    ensures a != [] && b != [] ==> JoinWithSpace(a + b) == JoinWithSpace(a) + " " + JoinWithSpace(b)
  {
    if |a| == 1 && b != [] {
      assert (a + b)[1..] == b;
    } else if |a| > 1 && b != [] {
      assert (a + b)[1..] == a[1..] + b;
      JoinIsSpaced(a[1..], b);
    }
  }

  function UserText(input: UserInput): string {
    match input
    case Whole(text) => text
    case Parts(parts) => JoinWithSpace(TextsOf(parts))
  }

  /** The turns that begin in `lines`, numbered from `next`. */
  function Turns(lines: seq<WireLine>, next: int): seq<TurnInfo> {
    if lines == [] then []
    else if lines[0].TurnBegin? then [TurnInfo(next, UserText(lines[0].input))] + Turns(lines[1..], next + 1)
    else Turns(lines[1..], next)
  }

  lemma {:induction false} TurnsConcat(a: seq<WireLine>, b: seq<WireLine>, next: int)
    ensures Turns(a + b, next) == Turns(a, next) + Turns(b, next + |Turns(a, next)|)
  {
    if a == [] {
      assert a + b == b;
    } else {
      assert (a + b)[1..] == a[1..] + b;
      TurnsConcat(a[1..], b, if a[0].TurnBegin? then next + 1 else next);
    }
  }

  method EnumerateTurns(wire: Option<seq<WireLine>>) returns (turns: seq<TurnInfo>)
    ensures turns == Turns(wire.GetOr([]), 0)
  {
    turns := [];
    if wire.None? {
      return;
    }
    var currentTurn := -1;
    for i := 0 to |wire.value|
      invariant turns == Turns(wire.value[..i], 0) && currentTurn == |turns| - 1
    {
      var line := wire.value[i];
      assert wire.value[..i + 1] == wire.value[..i] + [line];
      TurnsConcat(wire.value[..i], [line], 0);
      assert [line][1..] == [];
      if line.TurnBegin? {
        currentTurn := currentTurn + 1;
        turns := turns + [TurnInfo(currentTurn, UserText(line.input))];
      }
    }
    assert wire.value[..|wire.value|] == wire.value;
  }

  /** What the scan in turn `current` does with a line: keep it or not, the turn it is in then, stop or not. */
  datatype Decision = Decision(keep: bool, turn: int, halt: bool)

  function Decide(line: WireLine, current: int, k: int): Decision {
    match line
    case BlankLine => Decision(false, current, false)
    case MalformedLine => Decision(false, current, false)
    case Metadata(_) => Decision(true, current, false)
    case TurnBegin(_) => Decision(current + 1 <= k, current + 1, current + 1 > k)
    case TurnEnd => Decision(current <= k, current, current == k)
    case OtherEvent(_) => Decision(current <= k, current, false)
  }

  /** The lines kept up to and including turn `k`, when the scan has reached turn `current`. */
  function Cut(lines: seq<WireLine>, current: int, k: int): seq<WireLine> {
    if lines == [] then [] else
    var d := Decide(lines[0], current, k);
    var rest := if d.halt then [] else Cut(lines[1..], d.turn, k);
    if d.keep then [lines[0]] + rest else rest
  }

  /** The turn the scan stops in. */
  function LastTurn(lines: seq<WireLine>, current: int, k: int): int {
    if lines == [] then current else
    var d := Decide(lines[0], current, k);
    if d.halt then d.turn else LastTurn(lines[1..], d.turn, k)
  }

  function TruncatedWire(wire: Option<seq<WireLine>>, k: int): Result<seq<WireLine>, ForkError> {
    if wire.None? then Err(WireMissing)
    else if LastTurn(wire.value, -1, k) < k then Err(TurnOutOfRange)
    else Ok(Cut(wire.value, -1, k))
  }

  /** One line of the scan: what it adds, and where the scan goes on. */
  lemma ScanStep(all: seq<WireLine>, i: nat, lines: seq<WireLine>, current: int, k: int)
    requires i < |all|
    ensures var d := Decide(all[i], current, k);
      && lines + Cut(all[i..], current, k) ==
         (if d.keep then lines + [all[i]] else lines) + (if d.halt then [] else Cut(all[i + 1..], d.turn, k))
      && LastTurn(all[i..], current, k) == if d.halt then d.turn else LastTurn(all[i + 1..], d.turn, k)
  {
    assert all[i..][1..] == all[i + 1..];
  }

  method TruncateWireAtTurn(wire: Option<seq<WireLine>>, turnIndex: int) returns (r: Result<seq<WireLine>, ForkError>)
    ensures r == TruncatedWire(wire, turnIndex)
  {
    if wire.None? {
      return Err(WireMissing);
    }
    var all := wire.value;
    var lines, currentTurn, i, stop := [], -1, 0, false;
    while i < |all| && !stop
      invariant 0 <= i <= |all|
      invariant stop ==> lines == Cut(all, -1, turnIndex) && currentTurn == LastTurn(all, -1, turnIndex)
      invariant !stop ==> lines + Cut(all[i..], currentTurn, turnIndex) == Cut(all, -1, turnIndex)
      invariant !stop ==> LastTurn(all[i..], currentTurn, turnIndex) == LastTurn(all, -1, turnIndex)
      decreases |all| - i, !stop
    {
      var line := all[i];
      ghost var before, d := lines, Decide(line, currentTurn, turnIndex);
      ScanStep(all, i, lines, currentTurn, turnIndex);
      if line.Metadata? {
        lines := lines + [line];
      } else if !line.BlankLine? && !line.MalformedLine? {
        if line.TurnBegin? {
          currentTurn := currentTurn + 1;
        }
        if line.TurnBegin? && currentTurn > turnIndex {
          stop := true;
        } else {
          if currentTurn <= turnIndex {
            lines := lines + [line];
          }
          if line.TurnEnd? && currentTurn == turnIndex {
            stop := true;
          }
        }
      }
      assert currentTurn == d.turn && stop == d.halt && lines == if d.keep then before + [line] else before;
      assert stop ==> lines + [] == lines;
      i := i + 1;
    }
    assert !stop ==> all[i..] == [] && lines + [] == lines;
    if currentTurn < turnIndex {
      return Err(TurnOutOfRange);
    }
    return Ok(lines);
  }

  lemma {:induction false} TurnsOfCut(lines: seq<WireLine>, current: int, k: int)
    ensures var all, kept := Turns(lines, current + 1), Turns(Cut(lines, current, k), current + 1);
      && kept <= all && |kept| == if k <= current then 0 else if |all| <= k - current then |all| else k - current
    ensures LastTurn(lines, current, k) < k <==> current + |Turns(lines, current + 1)| < k
  {
    if lines != [] {
      var d := Decide(lines[0], current, k);
      if !d.halt {
        TurnsOfCut(lines[1..], d.turn, k);
        var rest := Cut(lines[1..], d.turn, k);
        assert ([lines[0]] + rest)[1..] == rest;
      } else {
        assert ([lines[0]] + [])[1..] == [];
      }
    }
  }

  /** Truncation fails exactly when the turn does not exist, and otherwise keeps the first k + 1 turns. */
  lemma TruncatedWireTurns(wire: Option<seq<WireLine>>, k: int)
    requires wire.Some?
    ensures TruncatedWire(wire, k) == Err(TurnOutOfRange) <==> k >= |Turns(wire.value, 0)|
    ensures TruncatedWire(wire, k).Ok? ==>
      Turns(TruncatedWire(wire, k).value, 0) == Turns(wire.value, 0)[..if k < 0 then 0 else k + 1]
  {
    TurnsOfCut(wire.value, -1, k);
  }

  /** The lines that a reader makes something of. */
  function Legible(lines: seq<WireLine>): seq<WireLine> {
    if lines == [] then []
    else
      var last := lines[|lines| - 1];
      Legible(lines[..|lines| - 1]) + if last.BlankLine? || last.MalformedLine? then [] else [last]
  }

  lemma {:induction false} LegibleConcat(a: seq<WireLine>, b: seq<WireLine>)
    ensures Legible(a + b) == Legible(a) + Legible(b)
  {
    if b == [] {
      assert a + b == a;
    } else {
      LegibleConcat(a, b[..|b| - 1]);
      assert (a + b)[..|a + b| - 1] == a + b[..|b| - 1];
    }
  }

  /** How many turns have begun before line `n`. */
  function TurnsBefore(lines: seq<WireLine>, n: nat): nat
    requires n <= |lines|
  {
    |Turns(lines[..n], 0)|
  }

  /** Line `n` ends turn `k`, or begins a later one, when `current` turns less one have begun before the lines. */
  predicate IsOver(lines: seq<WireLine>, n: nat, current: int, k: int)
    requires n < |lines|
  {
    || (lines[n].TurnEnd? && current + TurnsBefore(lines, n) == k)
    || (lines[n].TurnBegin? && current + TurnsBefore(lines, n) >= k)
  }

  lemma TurnsBeforeLater(lines: seq<WireLine>, n: nat)
    requires 0 < n <= |lines|
    ensures TurnsBefore(lines, n) == TurnsBefore(lines[1..], n - 1) + if lines[0].TurnBegin? then 1 else 0
  {
    assert lines[..n] == [lines[0]] + lines[1..][..n - 1];
    TurnsConcat([lines[0]], lines[1..][..n - 1], 0);
    assert [lines[0]][1..] == [];
    TurnsShift(lines[1..][..n - 1], 0, |Turns([lines[0]], 0)|);
  }

  lemma {:induction false} TurnsShift(lines: seq<WireLine>, a: int, b: int)
    ensures |Turns(lines, a)| == |Turns(lines, b)|
  {
    if lines != [] {
      var step := if lines[0].TurnBegin? then 1 else 0;
      TurnsShift(lines[1..], a + step, b + step);
    }
  }

  lemma OverLater(lines: seq<WireLine>, i: nat, current: int, turn: int, k: int)
    requires 0 < i < |lines| && turn == current + if lines[0].TurnBegin? then 1 else 0
    ensures IsOver(lines, i, current, k) <==> IsOver(lines[1..], i - 1, turn, k)
  {
    TurnsBeforeLater(lines, i);
  }

  lemma LegibleFirst(lines: seq<WireLine>, later: nat)
    requires later < |lines|
    ensures Legible(lines[..later + 1])
         == (if lines[0].BlankLine? || lines[0].MalformedLine? then [] else [lines[0]]) + Legible(lines[1..][..later])
  {
    assert lines[..later + 1] == [lines[0]] + lines[1..][..later];
    LegibleConcat([lines[0]], lines[1..][..later]);
  }

  /** Up to the end of the turn every legible line is kept, whatever it is, and nothing behind it. */
  lemma {:induction false} CutKeepsAllUpToTheTurn(lines: seq<WireLine>, current: int, k: int) returns (n: nat)
    requires current <= k
    ensures n <= |lines| && Cut(lines, current, k) == Legible(lines[..n])
    ensures forall i | 0 <= i < n - 1 :: !IsOver(lines, i, current, k)
    ensures n > 0 && IsOver(lines, n - 1, current, k) ==> lines[n - 1].TurnEnd?
    ensures n < |lines| ==> (n > 0 && IsOver(lines, n - 1, current, k)) || IsOver(lines, n, current, k)
  {
    if lines == [] {
      return 0;
    }
    var d := Decide(lines[0], current, k);
    assert TurnsBefore(lines, 0) == 0;
    if d.halt {
      n := if d.keep then 1 else 0;
      assert lines[..n] == if d.keep then [lines[0]] else [];
      assert Legible([lines[0]]) == [lines[0]];
      return;
    }
    var later := CutKeepsAllUpToTheTurn(lines[1..], d.turn, k);
    n := later + 1;
    LegibleFirst(lines, later);
    forall i | 0 < i < |lines| ensures IsOver(lines, i, current, k) <==> IsOver(lines[1..], i - 1, d.turn, k) {
      OverLater(lines, i, current, d.turn, k);
    }
  }

  lemma {:induction false} CutOfCut(lines: seq<WireLine>, current: int, j: int, k: int)
    requires j <= k && (k == current ==> j == k)
    ensures Cut(Cut(lines, current, k), current, j) == Cut(lines, current, j)
  {
    if lines != [] {
      var d := Decide(lines[0], current, k);
      var rest := if d.halt then [] else Cut(lines[1..], d.turn, k);
      assert ([lines[0]] + rest)[1..] == rest;
      if !d.halt && !Decide(lines[0], current, j).halt {
        CutOfCut(lines[1..], d.turn, j, k);
      }
    }
  }

  /**
   Truncating at `k` and then at `j <= k` is truncating at `j` on every journal, except for the one pair of
   negative indices where a stray end-of-turn before the first turn stops the first scan early.
   */
  lemma CutComposes(j: int, k: int)
    requires j <= k
    ensures (forall lines :: Cut(Cut(lines, -1, k), -1, j) == Cut(lines, -1, j)) <==> !(k == -1 && j < -1)
  {
    if k == -1 && j < -1 {
      var stray := [TurnEnd, Metadata("")];
      assert stray[1..] == [Metadata("")] && [Metadata("")][1..] == [] && [TurnEnd][1..] == [];
      assert Cut(stray, -1, k) == [TurnEnd];
      assert Cut([Metadata("")], -1, j) == [Metadata("")];
      assert Cut(stray, -1, j) == [Metadata("")] && Cut([TurnEnd], -1, j) == [];
    } else {
      forall lines ensures Cut(Cut(lines, -1, k), -1, j) == Cut(lines, -1, j) {
        CutOfCut(lines, -1, j, k);
      }
    }
  }

  /** Forking a fork: for existing turns the two cuts agree as results, errors included. */
  lemma TruncateTwice(wire: Option<seq<WireLine>>, j: int, k: int)
    requires 0 <= j <= k && TruncatedWire(wire, k).Ok?
    ensures TruncatedWire(Some(TruncatedWire(wire, k).value), j) == TruncatedWire(wire, j)
  {
    CutOfCut(wire.value, -1, j, k);
    TruncatedWireTurns(wire, k);
    TruncatedWireTurns(wire, j);
    TruncatedWireTurns(Some(TruncatedWire(wire, k).value), j);
  }

  // ---------------------------------------------------------------- the context journal

  /** The shape `<system>CHECKPOINT <digits></system>`. */
  predicate IsCheckpointText(text: string) {
    var prefix, suffix := "<system>CHECKPOINT ", "</system>";
    && |prefix| + |suffix| < |text|
    && text[..|prefix|] == prefix && text[|text| - |suffix|..] == suffix
    && AllDigits(text[|prefix|..|text| - |suffix|])
  }

  predicate IsCheckpointUserMessage(m: Message) {
    m.role == User && |m.content| == 1 && m.content[0].TextPart? && IsCheckpointText(Strip(m.content[0].text))
  }

  /** The shape is exactly that of a marker: at least one digit between the fixed texts. */
  lemma CheckpointTextIffMarker(text: string)
    ensures IsCheckpointText(text) <==>
      exists digits :: digits != "" && AllDigits(digits) && text == "<system>CHECKPOINT " + digits + "</system>"
  {
    var prefix, suffix := "<system>CHECKPOINT ", "</system>";
    if IsCheckpointText(text) {
      var digits := text[|prefix|..|text| - |suffix|];
      assert text == prefix + digits + suffix;
    }
    if digits :| digits != "" && AllDigits(digits) && text == prefix + digits + suffix {
      assert text[|prefix|..|text| - |suffix|] == digits;
    }
  }

  /** Whether a context line begins a turn: a user message that is not a checkpoint marker. */
  predicate BeginsTurn(r: Record) {
    match r
    case MessageRecord(m) => m.role == User && !IsCheckpointUserMessage(m)
    case Junk(Unusable(userRole)) => userRole
    case _ => false
  }

  /** Only what a user said begins a turn, and everything a user said does, except for a single stripped marker text. */
  lemma OnlyUserMessagesBeginTurns(r: Record)
    ensures BeginsTurn(r) ==> (r.MessageRecord? && r.message.role == User) || r == Junk(Unusable(true))
    ensures r == Junk(Unusable(true)) ==> BeginsTurn(r)
    ensures r.MessageRecord? && r.message.role == User ==>
      (!BeginsTurn(r) <==> exists text, digits ::
         && r.message.content == [TextPart(text)] && digits != "" && AllDigits(digits)
         && Strip(text) == "<system>CHECKPOINT " + digits + "</system>")
  {
    if r.MessageRecord? && r.message.role == User {
      var content := r.message.content;
      if |content| == 1 && content[0].TextPart? {
        assert content == [TextPart(content[0].text)];
        CheckpointTextIffMarker(Strip(content[0].text));
      }
    }
  }

  function CutContext(log: Log, current: int, k: int): Log {
    if log == [] then []
    else if log[0] == Junk(Unreadable) then CutContext(log[1..], current, k)
    else if BeginsTurn(log[0]) then
      if current + 1 > k then [] else [log[0]] + CutContext(log[1..], current + 1, k)
    else if current <= k then [log[0]] + CutContext(log[1..], current, k)
    else CutContext(log[1..], current, k)
  }

  method TruncateContextAtTurn(context: Option<Log>, turnIndex: int) returns (lines: Log)
    ensures lines == CutContext(context.GetOr([]), -1, turnIndex)
  {
    lines := [];
    if context.None? {
      return;
    }
    var all := context.value;
    var currentTurn, i := -1, 0;
    while i < |all|
      invariant 0 <= i <= |all|
      invariant lines + CutContext(all[i..], currentTurn, turnIndex) == CutContext(all, -1, turnIndex)
    {
      assert all[i..][1..] == all[i + 1..];
      var record := all[i];
      i := i + 1;
      if record == Junk(Unreadable) {
        continue;
      }
      if BeginsTurn(record) {
        currentTurn := currentTurn + 1;
        if currentTurn > turnIndex {
          break;
        }
      }
      if currentTurn <= turnIndex {
        lines := lines + [record];
      }
    }
  }

  function RealTurns(log: Log): nat {
    if log == [] then 0 else RealTurns(log[1..]) + if BeginsTurn(log[0]) then 1 else 0
  }

  function Readable(log: Log): Log {
    if log == [] then []
    else if log[0] == Junk(Unreadable) then Readable(log[1..])
    else [log[0]] + Readable(log[1..])
  }

  /** The cut is a prefix of the readable lines and holds the first k + 1 turns, or all there are. */
  lemma {:induction false} CutContextPrefix(log: Log, current: int, k: int)
    ensures CutContext(log, current, k) <= Readable(log)
    ensures RealTurns(CutContext(log, current, k))
         == if k <= current then 0 else if RealTurns(log) <= k - current then RealTurns(log) else k - current
  {
    if log != [] {
      var next := if BeginsTurn(log[0]) then current + 1 else current;
      CutContextPrefix(log[1..], next, k);
      var rest := CutContext(log[1..], next, k);
      assert ([log[0]] + rest)[1..] == rest;
      if current > k {
        NothingKeptBefore(log, current, k);
      }
    }
  }

  lemma {:induction false} NothingKeptBefore(log: Log, current: int, k: int)
    requires current > k
    ensures CutContext(log, current, k) == []
  {
    if log != [] {
      NothingKeptBefore(log[1..], current, k);
    }
  }

  lemma {:induction false} CutContextComposes(log: Log, current: int, j: int, k: int)
    requires j <= k
    ensures CutContext(CutContext(log, current, k), current, j) == CutContext(log, current, j)
  {
    if log != [] {
      var next := if BeginsTurn(log[0]) then current + 1 else current;
      CutContextComposes(log[1..], next, j, k);
      var rest := CutContext(log[1..], next, k);
      assert ([log[0]] + rest)[1..] == rest;
      if current > k {
        NothingKeptBefore(log, current, k);
        NothingKeptBefore(log, current, j);
      }
    }
  }

  lemma {:induction false} ReadableKeepsJournal(log: Log)
    ensures Ids(Readable(log)) == Ids(log)
    ensures Junk(Unreadable) !in log ==> Readable(log) == log
  {
    if log != [] {
      assert log == [log[0]] + log[1..];
      ReadableKeepsJournal(log[1..]);
      assert ([log[0]] + Readable(log[1..]))[1..] == Readable(log[1..]);
    }
  }

  lemma {:induction false} ReplayOfReadable(log: Log)
    ensures Replay(Readable(log)) == Replay(log)
  {
    if log != [] {
      var front, last := log[..|log| - 1], log[|log| - 1];
      assert log == front + [last];
      ReplayOfReadable(front);
      ReadableConcat(front, [last]);
      assert [last][1..] == [];
      if last != Junk(Unreadable) {
        assert (Readable(front) + [last])[..|Readable(front)|] == Readable(front);
      } else {
        assert Readable(front) + [] == Readable(front);
      }
    }
  }

  lemma {:induction false} ReadableConcat(a: Log, b: Log)
    ensures Readable(a + b) == Readable(a) + Readable(b)
  {
    if a == [] {
      assert a + b == b;
    } else {
      assert (a + b)[1..] == a[1..] + b;
      ReadableConcat(a[1..], b);
    }
  }

  lemma {:induction false} ReplayOfPrefix(prefix: Log, log: Log)
    requires prefix <= log
    ensures Replay(prefix).history <= Replay(log).history
    decreases |log|
  {
    if |prefix| < |log| {
      ReplayOfPrefix(prefix, log[..|log| - 1]);
    } else {
      assert prefix == log;
    }
  }

  /**
   A session forked from a running one opens consistently: its memory is the replay of the cut journal, its
   checkpoints are numbered from 0, and its history is a prefix of the original history.
   */
  lemma ForkOpensConsistently(s: State, k: int)
    requires Consistent(s)
    ensures var fork := Opened(Some(CutContext(LogOf(s), -1, k)));
      && Consistent(fork) && fork.history <= s.history && fork.nextCheckpoint <= s.nextCheckpoint
  {
    var log, cut := LogOf(s), CutContext(LogOf(s), -1, k);
    CutContextPrefix(log, -1, k);
    ReadableKeepsJournal(log);
    var rest := Readable(log)[|cut|..];
    assert Readable(log) == cut + rest;
    IdsConcat(cut, rest);
    assert forall i | 0 <= i < |Ids(cut)| :: Ids(cut)[i] == Ids(log)[i];
    OpenedConsistent(Some(cut));
    ReplayOfReadable(log);
    ReplayOfPrefix(cut, Readable(log));
    ConsistentCounter(s);
    ConsistentCounter(Opened(Some(cut)));
  }

  /** The marker that a checkpoint writes is recognised for every id. */
  lemma CheckpointMessageIsRecognised(id: nat)
    ensures IsCheckpointUserMessage(CheckpointMessage(id))
  {
    var text := CheckpointMessage(id).content[0].text;
    var prefix, suffix := "<system>CHECKPOINT ", "</system>";
    assert text == prefix + DecimalInt(id) + suffix by {
      assert "<system>" + "CHECKPOINT " == prefix;
    }
    assert text[0] == '<' && text[|text| - 1] == '>';
    StripIsIdentity(text);
    assert text[|prefix|..|text| - |suffix|] == DecimalInt(id);
  }

  /** The marker shows the number of its checkpoint, so different checkpoints are announced differently. */
  lemma CheckpointMessageShowsItsId(id: nat)
    ensures var message := CheckpointMessage(id);
      && message == PlainMessage(User, message.content) && |message.content| == 1 && message.content[0].TextPart?
      && var text, prefix, suffix := message.content[0].text, "<system>CHECKPOINT ", "</system>";
         && |prefix| + |suffix| < |text| && prefix <= text && text[|text| - |suffix|..] == suffix
         && ValueOf(text[|prefix|..|text| - |suffix|]) == id
  {
    var text := CheckpointMessage(id).content[0].text;
    var prefix, suffix := "<system>CHECKPOINT ", "</system>";
    assert "<system>" + "CHECKPOINT " == prefix;
    assert text == prefix + Decimal(id) + suffix;
    assert text[|prefix|..|text| - |suffix|] == Decimal(id);
    DecimalHasValue(id);
  }

  lemma {:induction false} RealTurnsConcat(a: Log, b: Log)
    ensures RealTurns(a + b) == RealTurns(a) + RealTurns(b)
  {
    if a == [] {
      assert a + b == b;
    } else {
      assert (a + b)[1..] == a[1..] + b;
      RealTurnsConcat(a[1..], b);
    }
  }

  /** Taking a checkpoint, announced or not, never adds a turn to the context journal. */
  lemma CheckpointAddsNoTurn(s: State, addUserMessage: bool)
    requires Consistent(s)
    ensures RealTurns(LogOf(Step(s, TakeCheckpoint(addUserMessage)))) == RealTurns(LogOf(s))
  {
    ConsistentCounter(s);
    var marker := [CheckpointRecord(s.nextCheckpoint)];
    var announced := MessageRecords([CheckpointMessage(s.nextCheckpoint)]);
    CheckpointMessageIsRecognised(s.nextCheckpoint);
    assert marker[1..] == [] && announced[1..] == [];
    RealTurnsConcat(LogOf(s), marker);
    RealTurnsConcat(LogOf(s) + marker, announced);
  }
}
