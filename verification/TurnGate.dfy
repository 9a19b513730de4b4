/** The turn-end contract: which frames bind a turn, prove its progress and end it
    (turn_boundary.go, appkit/turn_lifecycle_gate.go, appkit/turn_boundary.go). */
module TurnGate {
  import opened Text
  import opened TurnId
  import opened Wire
  import opened TurnProtocol

  /** A decoded inbound message: the two typed forms, an untyped map, or any other type. */
  datatype Msg =
    | StatusMsg(state: string, turnId: string, loopId: string)
    | EventMsg(namespace: Json, mode: string, data: Json, turnId: string, loopId: string)
    | MapMsg(frame: Json)
    | OtherMsg(body: Json)

  predicate Typed(m: Msg) {
    m.StatusMsg? || m.EventMsg?
  }

  const TURN_END_STREAM_END := STREAM_END
  const TURN_END_IDLE := "status.idle"
  const TURN_END_STOPPED := "status.stopped"

  predicate IsDaemonTurnEndEvent(completionEvent: string) {
    TrimSpace(completionEvent) in {TURN_END_STREAM_END, TURN_END_IDLE, TURN_END_STOPPED}
  }

  predicate IsTurnTerminalAllowed(expected: string, frameTurn: string, queryStarted: bool, progress: bool) {
    queryStarted && progress && TurnIDsMatch(expected, frameTurn)
  }

  predicate IsIdleTerminalAllowed(
    expected: string, frameTurn: string, queryStarted: bool, progress: bool, cancellationSeen: bool)
  {
    && queryStarted && !Blank(expected)
    && if Blank(frameTurn) then cancellationSeen
       else TurnIDsMatch(expected, frameTurn) && (progress || cancellationSeen)
  }

  // ---------------------------------------------------------------- what a message says

  /** The state of a status message, in the spelling its form is compared with. */
  predicate HasState(m: Msg, word: string) {
    match m
    case StatusMsg(state, _, _) => EqualFold(TrimSpace(state), word)
    case MapMsg(frame) => StrField(frame, "type") == "status" && StrField(frame, "state") == word
    case _ => false
  }

  /** The turn id on a status message. */
  function StatusTurn(m: Msg): string {
    match m
    case StatusMsg(_, turnId, _) => TrimSpace(turnId)
    case MapMsg(frame) => FrameTurnID(frame)
    case _ => ""
  }

  predicate EventShaped(m: Msg) {
    m.EventMsg? || (m.MapMsg? && (StrField(m.frame, "type") == "event" || StrField(m.frame, "mode") != ""))
  }

  function ModeOf(m: Msg): string {
    if m.EventMsg? then m.mode else if m.MapMsg? then StrField(m.frame, "mode") else ""
  }

  function DataOf(m: Msg): Json {
    if m.EventMsg? then m.data else if m.MapMsg? then Get(m.frame, "data") else Null
  }

  predicate IsProgress(m: Msg) {
    EventShaped(m) && IsTurnProgressChunk(ModeOf(m), DataOf(m))
  }

  predicate IsTurnEnd(m: Msg) {
    EventShaped(m) && ModeOf(m) == "custom" && IsTurnEndCustomData(DataOf(m))
  }

  /** The turn id a turn-end event speaks for: the one in its data wins. */
  function EventTurn(m: Msg): string {
    var inner := FrameTurnID(DataOf(m));
    if inner != "" then inner
    else if m.EventMsg? then TrimSpace(m.turnId)
    else if m.MapMsg? then FrameTurnID(m.frame)
    else ""
  }

  lemma FrameTurnTrimmed(frame: Json)
    ensures Trimmed(FrameTurnID(frame))
  {
    TrimTwice(StrField(frame, "turn_id"));
    TrimTwice(StrField(Get(frame, "data"), "turn_id"));
  }

  /** What a message says about turns. */
  function Read(m: Msg): Signal {
    Signal(HasState(m, "running"), HasState(m, "stopped"), HasState(m, "idle"), TurnOf(StatusTurn(m)),
           IsProgress(m), IsTurnEnd(m), TurnOf(EventTurn(m)))
  }

  function Signals(ms: seq<Msg>): seq<Signal> {
    seq(|ms|, i requires 0 <= i < |ms| => Read(ms[i]))
  }

  /** The wire name of a reason. */
  function ReasonName(r: Reason): string {
    match r
    case NotYet => ""
    case StreamEnd => TURN_END_STREAM_END
    case Idle => TURN_END_IDLE
    case Stopped => TURN_END_STOPPED
  }

  // ---------------------------------------------------------------- the objects

  lemma NoTurnOfBlank()
    ensures TurnOf("") == NoTurn
  {
  }

  class TurnLifecycleGate {
    var SawRunning: bool
    var SawTurnProgress: bool
    var ExpectedTurnID: string
    var CancellationSeen: bool

    predicate Valid()
      reads this
    {
      Trimmed(ExpectedTurnID)
    }

    function View(): Gate
      reads this
    {
      Gate(SawRunning, SawTurnProgress, TurnOf(ExpectedTurnID), CancellationSeen)
    }

    predicate AllowStreamEnd(frameTurnID: string)
      reads this
    {
      IsTurnTerminalAllowed(ExpectedTurnID, frameTurnID, SawRunning, SawTurnProgress)
    }

    predicate AllowIdleComplete(frameTurnID: string)
      reads this
    {
      IsIdleTerminalAllowed(ExpectedTurnID, frameTurnID, SawRunning, SawTurnProgress, CancellationSeen)
    }

    constructor ()
      ensures Valid() && View() == Fresh(false).gate
    {
      SawRunning, SawTurnProgress, ExpectedTurnID, CancellationSeen := false, false, "", false;
    }

    method Observe(msg: Msg)
      requires Valid()
      modifies this
      ensures Valid() && View() == Observed(old(View()), Read(msg))
    {
      hide EqualFold, TrimSpace, TurnOf, IsTurnEndCustomData, IsTurnProgressChunk, FrameTurnID, Trimmed;
      NoTurnOfBlank();
      match msg
      case StatusMsg(state, turnId, _) =>
        if EqualFold(TrimSpace(state), "running") {
          SawRunning := true;
          var tid := TrimSpace(turnId);
          TrimTwice(turnId);
          if tid != "" {
            NoteRunningTurn(tid);
          }
        }
      case EventMsg(_, mode, data, _, _) =>
        if IsTurnProgressChunk(mode, data) {
          SawTurnProgress := true;
        }
      case MapMsg(frame) =>
        var typ := StrField(frame, "type");
        if typ == "status" && StrField(frame, "state") == "running" {
          SawRunning := true;
          var tid := FrameTurnID(frame);
          FrameTurnTrimmed(frame);
          if tid != "" {
            NoteRunningTurn(tid);
          }
        }
        if typ == "event" || StrField(frame, "mode") != "" {
          if IsTurnProgressChunk(StrField(frame, "mode"), Get(frame, "data")) {
            SawTurnProgress := true;
          }
        }
      case OtherMsg(_) =>
    }

    method NoteRunningTurn(tid: string)
      requires Valid() && tid != "" && Trimmed(tid) && SawRunning
      modifies this
      ensures Valid() && View() == Bind(old(View()), TurnOf(tid))
    {
      hide TurnOf, ParseTurnGeneration, Trimmed;
      TurnOfTrimmed(tid);
      TurnOfTrimmed(ExpectedTurnID);
      var newGen := ParseTurnGeneration(tid);
      var oldGen := ParseTurnGeneration(ExpectedTurnID);
      if ExpectedTurnID == "" || (newGen > 0 && (oldGen < 0 || newGen >= oldGen)) {
        if ExpectedTurnID != "" && tid != ExpectedTurnID {
          SawTurnProgress := false;
        }
        ExpectedTurnID := tid;
      }
    }
  }

  /** The string tests of the gate are the tests of the contract on the turns they name. */
  lemma GateRules(gate: TurnLifecycleGate, frameTurn: string)
    requires gate.Valid()
    ensures gate.AllowStreamEnd(frameTurn) <==> AllowStreamEnd(gate.View(), TurnOf(frameTurn))
    ensures gate.AllowIdleComplete(frameTurn) <==> AllowIdleComplete(gate.View(), TurnOf(frameTurn))
    ensures TurnIDsMatch(gate.ExpectedTurnID, frameTurn) <==> SameTurn(gate.View().expected, TurnOf(frameTurn))
    ensures gate.ExpectedTurnID == "" <==> gate.View().expected == NoTurn
  {
    MatchIsSameTurn(gate.ExpectedTurnID, frameTurn);
    TrimOfTrimmed(gate.ExpectedTurnID);
  }

  class TurnBoundary {
    const Gate: TurnLifecycleGate
    var Ended: bool
    var Reason: string

    ghost predicate Valid()
      reads this, Gate
    {
      Gate.Valid() && Ended == (View().reason != NotYet) && Reason == ReasonName(View().reason)
    }

    function View(): Boundary
      reads this, Gate
    {
      Boundary(Gate.View(),
               if Reason == TURN_END_STREAM_END then StreamEnd
               else if Reason == TURN_END_IDLE then Idle
               else if Reason == TURN_END_STOPPED then Stopped
               else NotYet)
    }

    constructor ()
      ensures Valid() && View() == Fresh(false)
      ensures fresh(Gate)
    {
      Gate := new TurnLifecycleGate();
      Ended, Reason := false, "";
    }

    /** Feeding one message takes one step of the contract and reports its verdict. */
    method Feed(msg: Msg) returns (ended: bool, reason: string)
      requires Valid()
      modifies this, Gate
      ensures Valid() && View() == Fed(old(View()), Read(msg))
      ensures ended == View().Ended() && reason == ReasonName(View().reason)
    {
      hide Observed, Verdict, TurnOf, EqualFold, TrimSpace, IsTurnEndCustomData, IsTurnProgressChunk, FrameTurnID;
      if Ended {
        return true, Reason;
      }
      Gate.Observe(msg);
      ghost var s := Read(msg);
      match msg
      case StatusMsg(st, turnId, _) =>
        var state := TrimSpace(st);
        ended, reason := Decide(
          EqualFold(state, "stopped"), EqualFold(state, "idle"), TrimSpace(turnId), false, "", s);
      case EventMsg(_, mode, data, turnId, _) =>
        var frameTurn := TrimSpace(turnId);
        var tid := FrameTurnID(data);
        if tid != "" {
          frameTurn := tid;
        }
        ended, reason := Decide(false, false, "", mode == "custom" && IsTurnEndCustomData(data), frameTurn, s);
      case MapMsg(frame) =>
        var typ, state, mode := StrField(frame, "type"), StrField(frame, "state"), StrField(frame, "mode");
        var data := Get(frame, "data");
        var frameTurn := FrameTurnID(frame);
        var tid := FrameTurnID(data);
        ended, reason := Decide(
          typ == "status" && state == "stopped", typ == "status" && state == "idle", frameTurn,
          (typ == "event" || mode != "") && mode == "custom" && IsTurnEndCustomData(data),
          if tid != "" then tid else frameTurn, s);
      case OtherMsg(_) =>
        ended, reason := Decide(false, false, "", false, "", s);
    }

    /** The verdict on a message the gate has observed: its status is judged first, then its event. */
    method Decide(stopped: bool, idle: bool, statusTurn: string, turnEnd: bool, eventTurn: string, ghost s: Signal)
      returns (ended: bool, reason: string)
      requires Valid() && !Ended
      requires s.stopped == stopped && s.idle == idle && s.turnEnd == turnEnd
      requires stopped || idle ==> s.statusTurn == TurnOf(statusTurn)
      requires turnEnd ==> s.eventTurn == TurnOf(eventTurn)
      modifies this
      ensures Valid() && View() == Boundary(Gate.View(), Verdict(Gate.View(), s))
      ensures ended == View().Ended() && reason == ReasonName(View().reason)
    {
      GateRules(Gate, statusTurn);
      GateRules(Gate, eventTurn);
      hide TurnLifecycleGate.AllowStreamEnd, TurnLifecycleGate.AllowIdleComplete, TurnIDsMatch, TurnOf,
        AllowStreamEnd, AllowIdleComplete, TurnLifecycleGate.Valid;
      if stopped && Gate.SawRunning {
        if Gate.ExpectedTurnID != "" && !TurnIDsMatch(Gate.ExpectedTurnID, statusTurn) {
          return false, "";
        }
        ended, reason := Mark(TURN_END_STOPPED);
        return;
      }
      if idle && Gate.AllowIdleComplete(statusTurn) {
        ended, reason := Mark(TURN_END_IDLE);
        return;
      }
      if turnEnd && Gate.AllowStreamEnd(eventTurn) {
        ended, reason := Mark(TURN_END_STREAM_END);
        return;
      }
      return false, "";
    }

    method Mark(why: string) returns (ended: bool, reason: string)
      modifies this
      ensures Ended && Reason == why && ended && reason == why
    {
      Ended := true;
      Reason := why;
      return true, why;
    }
  }

  // ---------------------------------------------------------------- typed streams

  lemma WordsDiffer(s: string)
    ensures EqualFold(s, "idle") || EqualFold(s, "stopped") ==> !EqualFold(s, "running")
  {
    assert |"idle"| != |"running"| && "stopped"[0] != "running"[0];
  }

  /** A message has one state at most, and never both ends a turn and proves progress. */
  lemma OneRole(m: Msg)
    ensures HasState(m, "idle") ==> !HasState(m, "stopped") && !HasState(m, "running")
    ensures HasState(m, "stopped") ==> !HasState(m, "running")
    ensures IsTurnEnd(m) ==> !IsProgress(m)
  {
    hide TrimSpace;
    if m.StatusMsg? {
      WordsDiffer(TrimSpace(m.state));
    }
    if IsTurnEnd(m) {
      TurnEndIsNotProgress(DataOf(m));
    }
  }

  /** The wire types that the decoder gives a type of their own: protocol envelopes, event frames
      and status frames. */
  const DECODED_TYPES := {
    "connection_init", "connection_ack", "request", "response", "notification", "subscribe", "error", "complete",
    "unsubscribe", "ping", "pong", "receipt_response", "disconnect", "next", "event", "status"
  }

  /** A message as the decoder hands it over: only frames of other types stay maps. */
  predicate Decoded(m: Msg) {
    m.MapMsg? ==> StrField(m.frame, "type") !in DECODED_TYPES
  }

  /** The roles of a decoded message are separate. */
  lemma DecodedSeparate(m: Msg)
    requires Decoded(m)
    ensures Separate(Read(m))
  {
    OneRole(m);
  }

  predicate AllTyped(ms: seq<Msg>) {
    forall i :: 0 <= i < |ms| ==> Typed(ms[i])
  }

  /** A stream of any messages, not cancelled from outside, ends a turn at a decoded message only
      after an earlier running status; by stream-end or idle only at a message for the bound turn,
      with progress that came earlier and after the last change of turn. */
  lemma DecodedTurnEndSafety(ms: seq<Msg>, k: nat)
    requires k < |ms| && Decoded(ms[k]) && EndsAt(false, Signals(ms), k)
    ensures var ss := Signals(ms);
            var reason, bound := Run(false, ss[..k + 1]).reason, Bound(ss[..k + 1]);
            && (exists i :: 0 <= i < k && HasState(ms[i], "running"))
            && (reason == Stopped ==> HasState(ms[k], "stopped") && bound in {NoTurn, TurnOf(StatusTurn(ms[k]))})
            && (reason != Stopped ==>
                  && bound != NoTurn
                  && (exists j :: 0 <= j < k && IsProgress(ms[j]) && forall i :: j < i <= k ==> !Rebinds(ss, i)))
            && (reason == StreamEnd ==> IsTurnEnd(ms[k]) && TurnOf(EventTurn(ms[k])) == bound)
            && (reason == Idle ==> HasState(ms[k], "idle") && TurnOf(StatusTurn(ms[k])) == bound)
  {
    hide HasState, IsProgress, IsTurnEnd, TurnOf, StatusTurn, EventTurn, Rebinds, Bound, Verdict, Meaning;
    var ss := Signals(ms);
    var pre := ss[..k + 1];
    DecodedSeparate(ms[k]);
    TurnEndSafety(ss, k);
    NextReason(false, ss, k);
    MarkIsTerminal(Meaning(false, pre), ss[k]);
    var i :| 0 <= i <= k && ss[i].running && (Separate(ss[k]) ==> i < k);
    assert HasState(ms[i], "running");
    if Run(false, pre).reason != Stopped {
      var j :| 0 <= j <= k && LiveProgress(pre, j) && (Separate(ss[k]) ==> j < k);
      RebindsPrefix(ss, k + 1);
      assert IsProgress(ms[j]);
    }
  }

  lemma MarkIsTerminal(g: Gate, s: Signal)
    requires Verdict(g, s) != NotYet
    ensures s.stopped || s.idle || s.turnEnd
  {
  }

  lemma ReadRunning(tid: string, loop: string)
    ensures Read(StatusMsg("running", tid, loop))
         == Signal(true, false, false, TurnOf(TrimSpace(tid)), false, false, NoTurn)
  {
    TrimOfTrimmed("running");
    WordsDiffer("running");
    assert EqualFold("running", "running");
    hide TrimSpace, EqualFold, TurnOf, IsTurnEndCustomData, IsTurnProgressChunk;
  }

  lemma TurnOfTrim(tid: string)
    ensures TurnOf(TrimSpace(tid)) == TurnOf(tid)
  {
    TrimTwice(tid);
  }

  // ---------------------------------------------------------------- what ends a turn, by name

  /** The turn id that an event speaks for: that in its data, or nested in that, or its own. */
  predicate SpeaksFor(m: Msg, turnId: string)
    requires m.EventMsg?
  {
    var inner := TrimSpace(StrField(m.data, "turn_id"));
    var nested := TrimSpace(StrField(Get(m.data, "data"), "turn_id"));
    TrimSpace(turnId) == if inner != "" then inner else if nested != "" then nested else TrimSpace(m.turnId)
  }

  lemma ReadStatus(m: Msg)
    requires m.StatusMsg?
    ensures Read(m) == Signal(HasState(m, "running"), HasState(m, "stopped"), HasState(m, "idle"), TurnOf(m.turnId),
                              false, false, NoTurn)
  {
    TurnOfTrim(m.turnId);
  }

  lemma ReadPlain(word: string, turnId: string, loop: string)
    requires word in {"running", "stopped", "idle"}
    ensures Read(StatusMsg(word, turnId, loop))
         == Signal(word == "running", word == "stopped", word == "idle", TurnOf(turnId), false, false, NoTurn)
  {
    var m := StatusMsg(word, turnId, loop);
    assert Trimmed(word) && EqualFold(word, word);
    hide TrimSpace, EqualFold, TurnOf, Read;
    TrimOfTrimmed(word);
    OneRole(m);
    ReadStatus(m);
  }

  /** `s` is the word with some letters in upper case. */
  predicate CaseOf(s: string, word: string) {
    && |s| == |word|
    && forall i :: 0 <= i < |s| ==> s[i] == word[i] || ('A' <= s[i] <= 'Z' && s[i] - 'A' + 'a' == word[i])
  }

  /** A typed status is recognised in any case and between any white space, and no other word is. */
  lemma SpellingIgnored(before: string, s: string, behind: string, word: string, turnId: string, loop: string)
    requires word in {"running", "stopped", "idle"} && AllSpace(before) && AllSpace(behind) && CaseOf(s, word)
    ensures Read(StatusMsg(before + s + behind, turnId, loop)) == Read(StatusMsg(word, turnId, loop))
  {
    var m, plain := StatusMsg(before + s + behind, turnId, loop), StatusMsg(word, turnId, loop);
    assert forall i :: 0 <= i < |word| ==> 'a' <= word[i] <= 'z';
    assert Trimmed(s) && EqualFold(s, word);
    hide TrimSpace, EqualFold, Read, TurnOf;
    TrimSurrounded(before, s, behind);
    OneRole(m);
    ReadStatus(m);
    ReadPlain(word, turnId, loop);
  }

  lemma ReadProgress(m: Msg)
    requires m.EventMsg? && NamesProgress(m.mode, m.data)
    ensures var s := Read(m); s.progress && !s.running && !s.stopped && !s.idle && !s.turnEnd
  {
    hide IsTurnProgressChunk, NamesProgress, TrimSpace, IsTurnEndCustomData;
    ProgressByName(m.mode, m.data);
    OneRole(m);
  }

  lemma ReadTurnEnd(m: Msg, turnId: string)
    requires m.EventMsg? && m.mode == "custom" && NamesTurnEnd(m.data) && SpeaksFor(m, turnId)
    ensures var s := Read(m);
            s.turnEnd && s.eventTurn == TurnOf(turnId) && !s.running && !s.stopped && !s.idle && !s.progress
  {
    hide NamesTurnEnd, TrimSpace, IsTurnEndCustomData, IsTurnProgressChunk;
    TurnEndByName(m.data);
    OneRole(m);
    TurnOfTrim(turnId);
  }

  lemma ThreeSteps(ss: seq<Signal>)
    requires |ss| == 3
    ensures Run(false, ss) == Fed(Fed(Fed(Fresh(false), ss[0]), ss[1]), ss[2])
  {
    TwoSteps(ss[..2]);
    assert ss[..2] == ss[..|ss| - 1];
  }

  /** A running status of a turn, then a chunk that proves progress by name. */
  function Underway(turnId: string, chunk: Msg): seq<Msg> {
    [StatusMsg("running", turnId, ""), chunk]
  }

  /** After these, for every turn, every payload and every named chunk, a turn-end event of the turn
      ends it, and so does an idle status. */
  lemma NamedProgressLetsTurnEnd(turnId: string, chunk: Msg, end: Msg, loop: string)
    requires !Blank(turnId) && chunk.EventMsg? && NamesProgress(chunk.mode, chunk.data)
    requires end.EventMsg? && end.mode == "custom" && NamesTurnEnd(end.data) && SpeaksFor(end, turnId)
    ensures Run(false, Signals(Underway(turnId, chunk) + [end])).reason == StreamEnd
    ensures Run(false, Signals(Underway(turnId, chunk) + [StatusMsg("idle", turnId, loop)])).reason == Idle
  {
    hide Read, NamesProgress, NamesTurnEnd, SpeaksFor, TrimSpace;
    assert TurnOf(turnId) != NoTurn;
    hide TurnOf;
    var idle := StatusMsg("idle", turnId, loop);
    ReadPlain("running", turnId, "");
    ReadPlain("idle", turnId, loop);
    ReadProgress(chunk);
    ReadTurnEnd(end, turnId);
    ThreeSteps(Signals(Underway(turnId, chunk) + [end]));
    ThreeSteps(Signals(Underway(turnId, chunk) + [idle]));
  }

  /** A stopped status of the turn ends it without any progress. */
  lemma StoppedEndsTurn(turnId: string, loop: string)
    ensures var ms := [StatusMsg("running", turnId, ""), StatusMsg("stopped", turnId, loop)];
            Run(false, Signals(ms)).reason == Stopped
  {
    hide Read, TurnOf;
    ReadPlain("running", turnId, "");
    ReadPlain("stopped", turnId, loop);
    TwoSteps(Signals([StatusMsg("running", turnId, ""), StatusMsg("stopped", turnId, loop)]));
  }

  /** Without a chunk that proves progress by name, no stream of typed messages ends a turn by
      turn-end or idle. */
  lemma NoNamedProgressNoEnd(ms: seq<Msg>)
    requires AllTyped(ms) && forall i :: 0 <= i < |ms| && ms[i].EventMsg? ==> !NamesProgress(ms[i].mode, ms[i].data)
    ensures Run(false, Signals(ms)).reason in {NotYet, Stopped}
  {
    hide NamesProgress, Bound, TurnOf, HasState, IsTurnEnd, StatusTurn, EventTurn, IsTurnProgressChunk;
    var ss := Signals(ms);
    forall i | 0 <= i < |ms|
      ensures !ss[i].progress
    {
      if ms[i].EventMsg? {
        ProgressByName(ms[i].mode, ms[i].data);
      }
    }
    forall k | 0 <= k < |ss|
      ensures EndReason(false, ss, k) in {NotYet, Stopped}
    {
      assert !ProgressSeen(ss[..k + 1]);
    }
    EndedExactly(false, ss);
  }

  // ---------------------------------------------------------------- messages that justify themselves

  /** A raw status map, which the decoder would have typed, that says idle for some turn and is a
      progress chunk as well. */
  predicate OwnProgress(m: Msg) {
    && m.MapMsg? && StrField(m.frame, "type") == "status" && StrField(m.frame, "state") == "idle"
    && FrameTurnID(m.frame) != "" && IsTurnProgressChunk(StrField(m.frame, "mode"), Get(m.frame, "data"))
  }

  /** A raw status map that says running for some turn and is a turn-end event of that turn. */
  predicate OwnRunning(m: Msg) {
    && m.MapMsg? && StrField(m.frame, "type") == "status" && StrField(m.frame, "state") == "running"
    && FrameTurnID(m.frame) != "" && StrField(m.frame, "mode") == "custom"
    && IsTurnEndCustomData(Get(m.frame, "data")) && EventTurn(m) == FrameTurnID(m.frame)
  }

  /** After `before`, the message ends the turn by idle or stream-end with no live progress but its
      own. */
  ghost predicate EndsOnOwnProgress(before: seq<Msg>, m: Msg) {
    var ss := Signals(before + [m]);
    && EndsAt(false, ss, |before|) && Run(false, ss).reason != Stopped
    && forall j :: 0 <= j < |before| ==> !LiveProgress(ss, j)
  }

  /** After `before`, the message ends the turn with no running status but its own. */
  ghost predicate EndsOnOwnRunning(before: seq<Msg>, m: Msg) {
    var ss := Signals(before + [m]);
    EndsAt(false, ss, |before|) && forall i :: 0 <= i < |before| ==> !ss[i].running
  }

  lemma OwnProgressReads(m: Msg)
    ensures OwnProgress(m) <==> HasState(m, "idle") && IsProgress(m) && TurnOf(StatusTurn(m)) != NoTurn
  {
    hide TrimSpace, IsTurnEndCustomData, FrameTurnID;
    if m.MapMsg? {
      NamesTurn(m.frame);
    }
  }

  lemma NamesTurn(frame: Json)
    ensures TurnOf(FrameTurnID(frame)) != NoTurn <==> FrameTurnID(frame) != ""
  {
    FrameTurnTrimmed(frame);
    TurnOfTrimmed(FrameTurnID(frame));
  }

  lemma OwnRunningReads(m: Msg)
    ensures OwnRunning(m) <==>
            HasState(m, "running") && IsTurnEnd(m) && TurnOf(EventTurn(m)) == TurnOf(StatusTurn(m)) != NoTurn
  {
    hide TrimSpace, IsTurnEndCustomData, FrameTurnID, TurnOf;
    if m.MapMsg? {
      NamesTurn(m.frame);
      FrameTurnTrimmed(m.frame);
      FrameTurnTrimmed(DataOf(m));
      TurnOfTrimmed(FrameTurnID(m.frame));
      TurnOfTrimmed(EventTurn(m));
    }
  }

  lemma LastSignal(before: seq<Msg>, m: Msg)
    ensures var ss := Signals(before + [m]);
            && |ss| == |before| + 1 && ss[|before|] == Read(m)
            && ss[..|before| + 1] == ss && ss[..|before|] == Signals(before)
  {
  }

  lemma OwnProgressOnly(before: seq<Msg>, m: Msg)
    requires EndsOnOwnProgress(before, m)
    ensures OwnProgress(m)
  {
    hide HasState, IsProgress, IsTurnEnd, TurnOf, StatusTurn, EventTurn, OwnProgress, Bound, Rebinds;
    LastSignal(before, m);
    TurnEndSafety(Signals(before + [m]), |before|);
    OneRole(m);
    OwnProgressReads(m);
  }

  lemma OwnRunningOnly(before: seq<Msg>, m: Msg)
    requires EndsOnOwnRunning(before, m)
    ensures OwnRunning(m)
  {
    hide HasState, IsProgress, IsTurnEnd, TurnOf, StatusTurn, EventTurn, OwnRunning, Rebinds, LiveProgress;
    LastSignal(before, m);
    TurnEndSafety(Signals(before + [m]), |before|);
    OneRole(m);
    OwnRunningReads(m);
    NothingAnnounced(Signals(before));
  }

  lemma {:induction false} NothingAnnounced(ss: seq<Signal>)
    requires forall i :: 0 <= i < |ss| ==> !ss[i].running
    ensures RunningTurns(ss) == []
  {
    if ss != [] {
      NothingAnnounced(ss[..|ss| - 1]);
    }
  }

  lemma TwoSteps(ss: seq<Signal>)
    requires |ss| == 2
    ensures Run(false, ss[..1]) == Fed(Fresh(false), ss[0])
    ensures Run(false, ss) == Fed(Fed(Fresh(false), ss[0]), ss[1]) && ss[..2] == ss
  {
    assert ss[..1][..0] == [] && ss[..2][..1] == ss[..1] && ss[..2] == ss;
  }

  lemma OwnProgressHappens(m: Msg)
    requires OwnProgress(m)
    ensures EndsOnOwnProgress([StatusMsg("running", StatusTurn(m), "")], m)
  {
    hide HasState, IsProgress, IsTurnEnd, TurnOf, StatusTurn, EventTurn, OwnProgress, Rebinds;
    var before := [StatusMsg("running", StatusTurn(m), "")];
    ReadRunning(StatusTurn(m), "");
    TurnOfTrim(StatusTurn(m));
    OwnProgressReads(m);
    OneRole(m);
    assert Signals(before + [m])[0] == Read(before[0]) && Signals(before + [m])[1] == Read(m);
    TwoSteps(Signals(before + [m]));
  }

  lemma OwnRunningHappens(m: Msg)
    requires OwnRunning(m)
    ensures EndsOnOwnRunning([EventMsg(Null, "messages", Null, "", "")], m)
  {
    var before := [EventMsg(Null, "messages", Null, "", "")];
    var s := Read(before[0]);
    assert s.progress && !s.running && !s.stopped && !s.idle && !s.turnEnd;
    hide HasState, IsProgress, IsTurnEnd, TurnOf, StatusTurn, EventTurn, OwnRunning;
    OwnRunningReads(m);
    OneRole(m);
    assert Signals(before + [m])[0] == s && Signals(before + [m])[1] == Read(m);
    TwoSteps(Signals(before + [m]));
  }

  /** Such maps exist for every turn id. */
  lemma RawStatusMaps(turnId: string)
    requires !Blank(turnId)
    ensures OwnProgress(MapMsg(Obj(map["type" := Str("status"), "state" := Str("idle"), "mode" := Str("messages"),
                                       "turn_id" := Str(turnId)])))
    ensures OwnRunning(MapMsg(Obj(map["type" := Str("status"), "state" := Str("running"), "mode" := Str("custom"),
                                      "turn_id" := Str(turnId), "data" := Obj(map["type" := Str(STREAM_END)])])))
  {
    TrimOfTrimmed(STREAM_END);
    TrimOfTrimmed("");
    var data := Obj(map["type" := Str(STREAM_END)]);
    assert StrField(data, "type") == STREAM_END && StrField(data, "scope") == "";
    assert StrField(data, "turn_id") == "" && Get(data, "data") == Null && StrField(Null, "turn_id") == "";
    hide TrimSpace;
  }

  /** The messages that can end a turn on no progress but their own are exactly the raw idle maps
      that are progress chunks; every other message needs earlier progress. */
  lemma OwnProgressExactly(m: Msg)
    ensures OwnProgress(m) <==> exists before :: EndsOnOwnProgress(before, m)
  {
    hide OwnProgress, EndsOnOwnProgress;
    if OwnProgress(m) {
      OwnProgressHappens(m);
    }
    if before :| EndsOnOwnProgress(before, m) {
      OwnProgressOnly(before, m);
    }
  }

  /** The messages that can end a turn on no running status but their own are exactly the raw running
      maps that are turn-end events of the turn they announce. */
  lemma OwnRunningExactly(m: Msg)
    ensures OwnRunning(m) <==> exists before :: EndsOnOwnRunning(before, m)
  {
    hide OwnRunning, EndsOnOwnRunning;
    if OwnRunning(m) {
      OwnRunningHappens(m);
    }
    if before :| EndsOnOwnRunning(before, m) {
      OwnRunningOnly(before, m);
    }
  }
}
