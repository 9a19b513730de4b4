/** The streaming loop of a daemon session on concrete frames (appkit/daemon_session.go). */
module DaemonSessions {
  import opened Text
  import opened TurnId
  import opened Wire
  import opened TurnGate
  import opened SessionProtocol
  import TurnProtocol

  type Turn = TurnId.Turn

  /** Filter of non-actionable chunks; a missing filter drops nothing. */
  type EarlyDrop = (Json, string, Json) -> bool

  function StateOf(state: string): State {
    if state == "running" then Running
    else if state == "stopped" then Stopping
    else if state == "idle" then Idling
    else OtherState
  }

  function ErrorMessage(frame: Json): string {
    var nested := StrField(Get(frame, "error"), "message");
    if nested != "" then nested
    else if StrField(frame, "message") != "" then StrField(frame, "message")
    else "daemon error"
  }

  function ChunkOf(frame: Json): Chunk {
    Chunk(Get(frame, "namespace"), StrField(frame, "mode"), Get(frame, "data"))
  }

  predicate TurnEndChunk(c: Chunk) {
    c.mode == "custom" && IsTurnEndCustomData(c.data)
  }

  /** The turn a turn-end event speaks for: the id in its data wins over that of the frame. */
  function DataTurn(frame: Json): string {
    var inner := FrameTurnID(Get(frame, "data"));
    if inner != "" then inner else FrameTurnID(frame)
  }

  function EndStateOfData(data: Json): string {
    if StrField(data, "type") == STREAM_END then "stream_end" else "completed"
  }

  function BodyOf(drop: EarlyDrop, frame: Json): Body {
    var eventType := StrField(frame, "type");
    if eventType == "status" then Status(StateOf(StrField(frame, "state")))
    else if eventType == "error" then Failure(ErrorMessage(frame))
    else if eventType == "command_response" then
      CommandReply(Contains(StrField(frame, "content"), "Cancellation requested"))
    else if eventType == "event" then
      var c := ChunkOf(frame);
      Event(IsTurnProgressChunk(c.mode, c.data), TurnEndChunk(c), TurnOf(DataTurn(frame)),
            EndStateOfData(c.data), drop(c.namespace, c.mode, c.data))
    else Ignored
  }

  /** What a frame, unwrapped from its `next` envelope, says to the session. */
  function ViewOf(drop: EarlyDrop, raw: Json): View {
    var frame := UnwrapNext(raw);
    View(ChunkOf(frame), StrField(frame, "loop_id"), TurnOf(FrameTurnID(frame)), BodyOf(drop, frame))
  }

  /** What a frame says, by its wire names. */
  lemma FrameByName(drop: EarlyDrop, frame: Json)
    requires StrField(frame, "type") != "next"
    ensures var v := ViewOf(drop, frame);
            && v.chunk == Chunk(Get(frame, "namespace"), StrField(frame, "mode"), Get(frame, "data"))
            && v.loop == StrField(frame, "loop_id") && v.turn == TurnOf(FrameTurnID(frame))
            && match StrField(frame, "type")
               case "status" =>
                 && v.body.Status?
                 && (v.body.state == Running <==> StrField(frame, "state") == "running")
                 && (v.body.state == Stopping <==> StrField(frame, "state") == "stopped")
                 && (v.body.state == Idling <==> StrField(frame, "state") == "idle")
               case "error" =>
                 var nested, own := StrField(Get(frame, "error"), "message"), StrField(frame, "message");
                 v.body == Failure(if nested != "" then nested else if own != "" then own else "daemon error")
               case "command_response" =>
                 v.body == CommandReply(Contains(StrField(frame, "content"), "Cancellation requested"))
               case "event" =>
                 && v.body.Event? && v.body.dropped == drop(v.chunk.namespace, v.chunk.mode, v.chunk.data)
                 && v.body.progress == NamesProgress(v.chunk.mode, v.chunk.data)
                 && v.body.turnEnd == (v.chunk.mode == "custom" && NamesTurnEnd(v.chunk.data))
                 && v.body.endState
                    == (if StrField(v.chunk.data, "type") == "soothe.stream.end" then "stream_end" else "completed")
               case _ => v.body == Ignored
  {
    var c := ChunkOf(frame);
    ProgressByName(c.mode, c.data);
    TurnEndByName(c.data);
    hide TrimSpace, Contains, IsTurnProgressChunk, IsTurnEndCustomData, NamesProgress, NamesTurnEnd, FrameTurnID,
      TurnOf;
    assert "running"[0] == 'r' && "stopped"[0] == 's' && "idle"[0] == 'i';
    assert "status"[0] == 's' && "error"[1] == 'r' && "command_response"[0] == 'c' && "event"[1] == 'v';
  }

  /** A frame wrapped in a `next` envelope says what it says alone. */
  lemma WrappedFrameSays(drop: EarlyDrop, raw: Json, frame: Json)
    requires StrField(raw, "type") == "next" && Get(Get(raw, "payload"), "data") == frame
    requires frame.Obj? && StrField(frame, "type") != "next"
    ensures ViewOf(drop, raw) == ViewOf(drop, frame)
  {
  }

  /** An envelope without a frame inside says nothing. */
  lemma EmptyEnvelopeSaysNothing(drop: EarlyDrop, raw: Json)
    requires StrField(raw, "type") == "next" && !Get(Get(raw, "payload"), "data").Obj?
    ensures ViewOf(drop, raw).body == Ignored
  {
    assert "next"[0] == 'n' && "status"[0] == 's' && "error"[0] == 'e';
    assert "command_response"[0] == 'c' && "event"[0] == 'e';
  }

  function Seen(drop: EarlyDrop, input: Input<Json>): Input<View> {
    match input
    case Got(frame, sendError) => Got(ViewOf(drop, frame), sendError)
    case Closed(alive) => Closed(alive)
    case Broken(message) => Broken(message)
  }

  function SeenAll(drop: EarlyDrop, inputs: seq<Input<Json>>): seq<Input<View>> {
    seq(|inputs|, i requires 0 <= i < |inputs| => Seen(drop, inputs[i]))
  }

  /** Every frame keeps turn end and progress apart, so every run is disciplined. */
  lemma AllRunsDisciplined(drop: EarlyDrop, loop: string, inputs: seq<Input<Json>>)
    ensures Disciplined(SessionProtocol.Run(loop, SeenAll(drop, inputs)))
  {
    var views := SeenAll(drop, inputs);
    forall i | 0 <= i < |views| && views[i].Got?
      ensures WellFormed(views[i].frame)
    {
      var c := ChunkOf(UnwrapNext(inputs[i].frame));
      if TurnEndChunk(c) {
        TurnEndIsNotProgress(c.data);
      }
    }
    StreamDiscipline(loop, views);
  }

  function EndStateOf(o: Outcome): string {
    match o
    case Ended(_, state) => state
    case Lost => "connection_lost"
    case _ => ""
  }

  function ErrorOf(o: Outcome): string {
    match o
    case Failed(message) => message
    case Lost => "daemon connection lost"
    case _ => ""
  }

  class DaemonSession {
    const earlyDrop: EarlyDrop
    var loopID: string
    var LastTurnEndState: string
    var LastTurnCancelSeen: bool
    var LastTurnErrorMessage: string
    var FilteredEarly: nat
    var out: seq<Chunk>  // chunks sent on the channel

    // the variables of the streaming loop
    var queryStarted: bool
    var expectedLoopID: string
    var expectedTurnID: string
    var turnProgressSeen: bool

    ghost var sent: seq<View>
    ghost var outcome: Outcome

    constructor (drop: EarlyDrop, loop: string)
      ensures Valid() && State() == Start(loop) && loopID == loop && earlyDrop == drop
    {
      earlyDrop, loopID := drop, loop;
      LastTurnEndState, LastTurnCancelSeen, LastTurnErrorMessage, FilteredEarly := "", false, "", 0;
      queryStarted, expectedLoopID, expectedTurnID, turnProgressSeen := false, loop, "", false;
      out, sent, outcome := [], [], Streaming;
    }

    ghost predicate Valid()
      reads this
    {
      && Trimmed(expectedTurnID) && expectedLoopID == loopID
      && |out| == |sent| && (forall i :: 0 <= i < |sent| ==> out[i] == sent[i].chunk)
      && LastTurnEndState == EndStateOf(outcome) && LastTurnErrorMessage == ErrorOf(outcome)
    }

    ghost function State(): Session
      reads this
    {
      Session(queryStarted, expectedLoopID, TurnOf(expectedTurnID), turnProgressSeen, LastTurnCancelSeen,
              sent, FilteredEarly, outcome)
    }

    /** Streaming a turn is a run of the session protocol on what was read. */
    method IterTurnChunks(inputs: seq<Input<Json>>) returns (finished: bool, err: string)
      modifies this
      ensures Valid() && State() == SessionProtocol.Run(old(loopID), SeenAll(earlyDrop, inputs))
      ensures finished == (State().outcome != Streaming) && err == LastTurnErrorMessage
      ensures match State().outcome
              case Ended(_, state) => LastTurnEndState == state && err == ""
              case Lost => LastTurnEndState == "connection_lost" && err == "daemon connection lost"
              case Failed(message) => LastTurnEndState == "" && err == message
              case _ => LastTurnEndState == "" && err == ""
      ensures var going := GoingOut(old(loopID), SeenAll(earlyDrop, inputs));
              |out| == |going| && forall i :: 0 <= i < |out| ==> out[i] == going[i].chunk
    {
      hide Step, Seen, TrimSpace, ParseTurnGeneration, GoingOut;
      SentExactly(loopID, SeenAll(earlyDrop, inputs));
      BeginTurn();
      var i := 0;
      ghost var views := SeenAll(earlyDrop, inputs);
      while i < |inputs|
        invariant 0 <= i <= |inputs|
        invariant Valid() && outcome == Streaming
        invariant State() == SessionProtocol.Run(old(loopID), views[..i])
      {
        assert views[..i + 1][..i] == views[..i];
        finished, err := Iterate(inputs[i]);
        i := i + 1;
        if finished {
          StaysFinished(old(loopID), views, i);
          return;
        }
      }
      assert views[..i] == views;
      return false, "";
    }

    method BeginTurn()
      modifies this
      ensures Valid() && State() == Start(loopID) && loopID == old(loopID)
    {
      LastTurnEndState, LastTurnCancelSeen, LastTurnErrorMessage, FilteredEarly := "", false, "", 0;
      queryStarted, expectedLoopID, expectedTurnID, turnProgressSeen := false, loopID, "", false;
      out, sent, outcome := [], [], Streaming;
    }

    /** One iteration of the loop. */
    method Iterate(input: Input<Json>) returns (finished: bool, err: string)
      requires Valid() && outcome == Streaming
      modifies this
      ensures Valid() && State() == Step(old(State()), Seen(earlyDrop, input))
      ensures finished == (outcome != Streaming) && err == ErrorOf(outcome)
    {
      match input
      case Broken(message) =>
        LastTurnErrorMessage := message;
        outcome := Failed(message);
        return true, message;
      case Closed(alive) =>
        if queryStarted && !alive {
          LastTurnEndState := "connection_lost";
          LastTurnErrorMessage := "daemon connection lost";
          outcome := Lost;
          return true, LastTurnErrorMessage;
        }
        outcome := Quiet;
        return true, "";
      case Got(raw, sendError) =>
        var frame := UnwrapNext(raw);
        FrameTurnTrimmed(frame);
        finished, err := OnFrame(ViewOf(earlyDrop, raw), FrameTurnID(frame), DataTurn(frame), sendError);
    }

    /** `turnID` and `dataTurnID` are the ids from which the decoded frame has its turns. */
    method OnFrame(v: View, turnID: string, dataTurnID: string, sendError: string) returns (finished: bool, err: string)
      requires Valid() && outcome == Streaming && Trimmed(turnID) && v.turn == TurnOf(turnID)
      requires v.body.Event? ==> v.body.eventTurn == TurnOf(dataTurnID)
      modifies this
      ensures Valid() && State() == Step(old(State()), Got(v, sendError))
      ensures finished == (outcome != Streaming) && err == ErrorOf(outcome)
    {
      hide TurnOf, Trimmed;
      if expectedLoopID != "" && v.loop != "" && v.loop != expectedLoopID {
        return false, "";
      }
      var skip := SkipTurn(v, turnID);
      if skip {
        return false, "";
      }
      match v.body
      case Failure(message) =>
        LastTurnErrorMessage := message;
        outcome := Failed(message);
        return true, message;
      case Status(_) =>
        finished := OnStatusFrame(v, turnID);
        return finished, "";
      case CommandReply(cancelling) =>
        if cancelling {
          LastTurnCancelSeen := true;
        }
        return false, "";
      case Ignored =>
        return false, "";
      case Event(_, _, _, _, _) =>
        finished, err := OnEventFrame(v, dataTurnID, sendError);
    }

    method SkipTurn(v: View, turnID: string) returns (skip: bool)
      requires Trimmed(expectedTurnID) && Trimmed(turnID) && v.turn == TurnOf(turnID)
      ensures skip == ForeignTurn(State(), v)
    {
      TurnRules(expectedTurnID, turnID);
      var isRunningStatus := v.body == Status(Running);
      var isTerminalStatus := v.body == Status(Idling) || v.body == Status(Stopping);
      if expectedTurnID != "" && (v.body.Event? || v.body.Status?) && !isRunningStatus {
        if isTerminalStatus {
          return turnID != "" && !TurnIDsMatch(expectedTurnID, turnID);
        }
        return !TurnIDsMatch(expectedTurnID, turnID);
      }
      return false;
    }

    method OnStatusFrame(v: View, turnID: string) returns (finished: bool)
      requires Valid() && outcome == Streaming && v.body.Status? && Trimmed(turnID) && v.turn == TurnOf(turnID)
      modifies this
      ensures Valid() && State() == OnStatus(old(State()), v)
      ensures finished == (outcome != Streaming) && ErrorOf(outcome) == ""
    {
      hide TurnOf, Trimmed, TurnProtocol.AllowIdleComplete;
      finished := TerminalAllowed(v, turnID);
      if v.loop != "" {
        loopID := v.loop;
        expectedLoopID := v.loop;
      }
      if v.body.state == Running {
        NoteRunning(turnID);
      } else if finished {
        LastTurnEndState := if v.body.state == Stopping then "stopped" else "idle";
        outcome := if v.body.state == Stopping then Ended(TurnProtocol.Stopped, "stopped")
                   else Ended(TurnProtocol.Idle, "idle");
      }
    }

    /** Whether a stopped or idle status may end the turn. */
    method TerminalAllowed(v: View, turnID: string) returns (ok: bool)
      requires Trimmed(expectedTurnID) && v.body.Status? && Trimmed(turnID) && v.turn == TurnOf(turnID)
      ensures ok == match v.body.state
                    case Stopping => queryStarted && (State().turn == NoTurn || v.turn == State().turn)
                    case Idling => TurnProtocol.AllowIdleComplete(
                      TurnProtocol.Gate(queryStarted, turnProgressSeen, State().turn, LastTurnCancelSeen), v.turn)
                    case _ => false
    {
      hide TurnOf, TurnIDsMatch, IsIdleTerminalAllowed, Trimmed, ParseTurnGeneration;
      TurnRules(expectedTurnID, turnID);
      IdleRule(expectedTurnID, turnID, queryStarted, turnProgressSeen, LastTurnCancelSeen);
      if v.body.state == Stopping {
        return queryStarted && (expectedTurnID == "" || TurnIDsMatch(expectedTurnID, turnID));
      } else if v.body.state == Idling {
        return queryStarted &&
          IsIdleTerminalAllowed(expectedTurnID, turnID, queryStarted, turnProgressSeen, LastTurnCancelSeen);
      }
      return false;
    }

    method NoteRunning(turn: string)
      requires Trimmed(turn) && Trimmed(expectedTurnID)
      modifies `queryStarted, `expectedTurnID, `turnProgressSeen
      ensures queryStarted && Trimmed(expectedTurnID)
      ensures var was, now := old(TurnOf(expectedTurnID)), TurnOf(turn);
              if TurnProtocol.Replaces(was, now) then
                && TurnOf(expectedTurnID) == now
                && turnProgressSeen == (old(turnProgressSeen) && (was == NoTurn || now == was))
              else expectedTurnID == old(expectedTurnID) && turnProgressSeen == old(turnProgressSeen)
    {
      TurnRules(expectedTurnID, turn);
      queryStarted := true;
      if turn != "" {
        var newGen := ParseTurnGeneration(turn);
        var oldGen := ParseTurnGeneration(expectedTurnID);
        if expectedTurnID == "" || (newGen > 0 && (oldGen < 0 || newGen >= oldGen)) {
          if expectedTurnID != "" && turn != expectedTurnID {
            turnProgressSeen := false;
          }
          expectedTurnID := turn;
        }
      }
    }

    method OnEventFrame(v: View, dataTurnID: string, sendError: string) returns (finished: bool, err: string)
      requires Valid() && outcome == Streaming && v.body.Event? && v.body.eventTurn == TurnOf(dataTurnID)
      modifies this
      ensures Valid() && State() == OnEvent(old(State()), v, sendError)
      ensures finished == (outcome != Streaming) && err == ErrorOf(outcome)
    {
      hide TurnOf, TurnIDsMatch, Trimmed, ParseTurnGeneration;
      TurnRules(expectedTurnID, dataTurnID);
      if v.body.dropped {
        FilteredEarly := FilteredEarly + 1;
        return false, "";
      }
      if v.body.turnEnd {
        if !IsTurnTerminalAllowed(expectedTurnID, dataTurnID, queryStarted, turnProgressSeen) {
          return false, "";
        }
      }
      if v.body.progress {
        turnProgressSeen := true;
      }
      if sendError != "" {
        LastTurnErrorMessage := sendError;
        outcome := Failed(sendError);
        return true, sendError;
      }
      out := out + [v.chunk];
      sent := sent + [v];
      if v.body.turnEnd {
        LastTurnEndState := v.body.endState;
        outcome := Ended(TurnProtocol.StreamEnd, v.body.endState);
        return true, "";
      }
      return false, "";
    }
  }

  /** The string tests on turn ids are tests on the turns they name. */
  lemma TurnRules(expected: string, turn: string)
    requires Trimmed(expected)
    ensures TurnIDsMatch(expected, turn) <==> TurnProtocol.SameTurn(TurnOf(expected), TurnOf(turn))
    ensures expected == "" <==> TurnOf(expected) == NoTurn
    ensures Trimmed(turn) ==> (turn == "" <==> TurnOf(turn) == NoTurn)
    ensures TurnOf(expected) != NoTurn ==> TurnOf(expected) == Turn.Turn(expected, ParseTurnGeneration(expected))
    ensures Trimmed(turn) && turn != "" ==> TurnOf(turn) == Turn.Turn(turn, ParseTurnGeneration(turn))
  {
    MatchIsSameTurn(expected, turn);
    TrimOfTrimmed(expected);
    if Trimmed(turn) {
      TrimOfTrimmed(turn);
    }
  }

  lemma IdleRule(expected: string, turn: string, started: bool, progress: bool, cancelled: bool)
    ensures IsIdleTerminalAllowed(expected, turn, started, progress, cancelled)
            <==> TurnProtocol.AllowIdleComplete(
                   TurnProtocol.Gate(started, progress, TurnOf(expected), cancelled), TurnOf(turn))
  {
    MatchIsSameTurn(expected, turn);
  }

  lemma {:induction false} StaysFinished(loop: string, views: seq<Input<View>>, k: nat)
    requires k <= |views| && SessionProtocol.Run(loop, views[..k]).outcome != Streaming
    ensures SessionProtocol.Run(loop, views) == SessionProtocol.Run(loop, views[..k])
  {
    if k == |views| {
      assert views[..k] == views;
    } else {
      var n := |views| - 1;
      assert views[..n][..k] == views[..k];
      StaysFinished(loop, views[..n], k);
    }
  }
}
