/** The streaming loop of a daemon session as a state machine over what frames say, its
    discipline over whole runs, and its simulation by the turn-end contract
    (appkit/daemon_session.go). */
module SessionProtocol {
  import opened TurnId
  import opened TurnProtocol
  import opened Wire

  datatype State = Running | Stopping | Idling | OtherState

  /** What one unwrapped frame says to the session. */
  datatype Body =
    | Status(state: State)
    | Failure(message: string)
    | CommandReply(cancelling: bool)
    | Event(progress: bool, turnEnd: bool, eventTurn: Turn, endState: string, dropped: bool)
    | Ignored

  /** One streamed turn frame. */
  datatype Chunk = Chunk(namespace: Json, mode: string, data: Json)

  /** The chunk a frame holds, the loop and turn it names, and what it says. */
  datatype View = View(chunk: Chunk, loop: string, turn: Turn, body: Body)

  /** What the loop meets at one iteration: a frame (with the error of a cancelled send, or ""),
      the end of the connection, or a failed read, cancellation or deadline. */
  datatype Input<+F> = Got(frame: F, sendError: string) | Closed(alive: bool) | Broken(message: string)

  datatype Outcome =
    | Streaming
    | Ended(kind: Reason, endState: string)
    | Quiet
    | Lost
    | Failed(message: string)

  datatype Session = Session(
    queryStarted: bool, loop: string, turn: Turn, progress: bool, cancelSeen: bool,
    sent: seq<View>, filtered: nat, outcome: Outcome)

  function Start(loop: string): Session {
    Session(false, loop, NoTurn, false, false, [], 0, Streaming)
  }

  /** Frames of another loop are skipped. */
  predicate ForeignLoop(s: Session, v: View) {
    s.loop != "" && v.loop != "" && v.loop != s.loop
  }

  /** Once a turn is bound, frames of other turns are skipped; a terminal status without a turn
      id is let through to its own test. */
  predicate ForeignTurn(s: Session, v: View) {
    && s.turn != NoTurn
    && match v.body
       case Status(Running) => false
       case Status(OtherState) => v.turn != s.turn
       case Status(_) => v.turn != NoTurn && v.turn != s.turn
       case Event(_, _, _, _, _) => v.turn != s.turn
       case _ => false
  }

  function OnStatus(s: Session, v: View): Session
    requires v.body.Status?
  {
    var at := if v.loop != "" then s.(loop := v.loop) else s;
    match v.body.state
    case Running =>
      if Replaces(s.turn, v.turn) then
        at.(queryStarted := true, turn := v.turn,
            progress := s.progress && (s.turn == NoTurn || v.turn == s.turn))
      else at.(queryStarted := true)
    case Stopping =>
      if s.queryStarted && (s.turn == NoTurn || v.turn == s.turn) then at.(outcome := Ended(Stopped, "stopped"))
      else at
    case Idling =>
      if AllowIdleComplete(Gate(s.queryStarted, s.progress, s.turn, s.cancelSeen), v.turn) then
        at.(outcome := Ended(Idle, "idle"))
      else at
    case OtherState => at
  }

  function OnEvent(s: Session, v: View, sendError: string): Session
    requires v.body.Event?
  {
    var e := v.body;
    if e.dropped then s.(filtered := s.filtered + 1)
    else if e.turnEnd && !(s.queryStarted && s.progress && SameTurn(s.turn, e.eventTurn)) then s
    else
      var s' := s.(progress := s.progress || e.progress);
      if sendError != "" then s'.(outcome := Failed(sendError))
      else if e.turnEnd then s'.(sent := s.sent + [v], outcome := Ended(StreamEnd, e.endState))
      else s'.(sent := s.sent + [v])
  }

  function Step(s: Session, input: Input<View>): Session {
    if s.outcome != Streaming then s
    else
      match input
      case Broken(message) => s.(outcome := Failed(message))
      case Closed(alive) => s.(outcome := if s.queryStarted && !alive then Lost else Quiet)
      case Got(v, sendError) =>
        if ForeignLoop(s, v) || ForeignTurn(s, v) then s
        else match v.body
          case Failure(message) => s.(outcome := Failed(message))
          case Status(_) => OnStatus(s, v)
          case CommandReply(cancelling) => s.(cancelSeen := s.cancelSeen || cancelling)
          case Event(_, _, _, _, _) => OnEvent(s, v, sendError)
          case Ignored => s
  }

  function Run(loop: string, inputs: seq<Input<View>>): Session {
    if inputs == [] then Start(loop)
    else Step(Run(loop, inputs[..|inputs| - 1]), inputs[|inputs| - 1])
  }

  // ---------------------------------------------------------------- stream discipline

  predicate SentTurnEnd(v: View) { v.body.Event? && v.body.turnEnd }
  predicate SentProgress(v: View) { v.body.Event? && v.body.progress }

  /** What every reachable state of the loop keeps. */
  predicate Disciplined(s: Session) {
    && (forall i :: 0 <= i < |s.sent| ==> s.sent[i].body.Event? && !s.sent[i].body.dropped)
    && (forall i :: 0 <= i < |s.sent| - 1 ==> !SentTurnEnd(s.sent[i]))
    && (s.progress && s.outcome == Streaming ==> exists i :: 0 <= i < |s.sent| && SentProgress(s.sent[i]))
    && (s.turn != NoTurn ==> s.queryStarted)
    && (s.sent != [] && SentTurnEnd(s.sent[|s.sent| - 1]) ==>
          && s.outcome.Ended? && s.outcome.kind == StreamEnd && s.queryStarted
          && s.sent[|s.sent| - 1].body.eventTurn == s.turn != NoTurn
          && (exists i :: 0 <= i < |s.sent| - 1 && SentProgress(s.sent[i])))
  }

  /** A turn-end event is not progress. */
  predicate WellFormed(v: View) {
    v.body.Event? ==> !(v.body.turnEnd && v.body.progress)
  }

  predicate AllWellFormed(inputs: seq<Input<View>>) {
    forall i :: 0 <= i < |inputs| && inputs[i].Got? ==> WellFormed(inputs[i].frame)
  }

  /** The only steps that send a chunk, and what they do. */
  lemma SendStep(s: Session, input: Input<View>)
    ensures var s' := Step(s, input);
            if s'.sent == s.sent then
              && (s'.progress && s'.outcome == Streaming ==> s.progress)
              && (s.outcome.Ended? ==> s' == s)
              && (s.outcome == Streaming && s'.outcome.Ended? ==> s'.outcome.kind != StreamEnd)
            else
              && s.outcome == Streaming && input.Got? && input.frame.body.Event? && !input.frame.body.dropped
              && s' == s.(sent := s.sent + [input.frame], outcome := s'.outcome,
                          progress := s.progress || input.frame.body.progress)
              && (if SentTurnEnd(input.frame) then
                    && s.queryStarted && s.progress && SameTurn(s.turn, input.frame.body.eventTurn)
                    && s'.outcome.Ended? && s'.outcome.kind == StreamEnd
                  else s'.outcome == Streaming)
  {
    hide ForeignLoop, ForeignTurn, AllowIdleComplete, Replaces;
  }

  lemma BoundMeansStarted(s: Session, input: Input<View>)
    requires s.turn != NoTurn ==> s.queryStarted
    ensures Step(s, input).turn != NoTurn ==> Step(s, input).queryStarted
  {
    hide ForeignLoop, ForeignTurn, AllowIdleComplete, Replaces;
  }

  lemma StepDisciplined(s: Session, input: Input<View>)
    requires Disciplined(s) && (input.Got? ==> WellFormed(input.frame))
    ensures Disciplined(Step(s, input))
  {
    SendStep(s, input);
    BoundMeansStarted(s, input);
    var s' := Step(s, input);
    if s'.sent != s.sent {
      if s.progress {
        var i :| 0 <= i < |s.sent| && SentProgress(s.sent[i]);
        assert SentProgress(s'.sent[i]);
      } else if s'.progress {
        assert SentProgress(s'.sent[|s.sent|]);
      }
    }
  }

  /** In every run only the last chunk can end the turn, and then only with a running status
      seen, for the bound turn, and after a progress chunk of the same stream. */
  lemma {:induction false} StreamDiscipline(loop: string, inputs: seq<Input<View>>)
    requires AllWellFormed(inputs)
    ensures Disciplined(Run(loop, inputs))
  {
    if inputs != [] {
      StreamDiscipline(loop, inputs[..|inputs| - 1]);
      StepDisciplined(Run(loop, inputs[..|inputs| - 1]), inputs[|inputs| - 1]);
    }
  }

  /** A chunk that is sent carries no other loop than the bound one and, once a turn is bound,
      exactly the bound turn. */
  lemma SentBelongs(loop: string, inputs: seq<Input<View>>, k: nat)
    requires k < |inputs|
    ensures var before, after := Run(loop, inputs[..k]), Run(loop, inputs[..k + 1]);
            || after.sent == before.sent
            || (&& inputs[k].Got? && after.sent == before.sent + [inputs[k].frame]
                && (before.loop != "" ==> inputs[k].frame.loop in {"", before.loop})
                && (before.turn != NoTurn ==> inputs[k].frame.turn == before.turn))
  {
    hide OnStatus;
    assert inputs[..k + 1][..k] == inputs[..k];
    var s := Run(loop, inputs[..k]);
    if inputs[k].Got? && inputs[k].frame.body.Status? && !ForeignLoop(s, inputs[k].frame) {
      StatusKeepsBindings(s, inputs[k].frame);
    }
  }

  lemma StatusKeepsBindings(s: Session, v: View)
    requires v.body.Status? && !ForeignLoop(s, v)
    ensures var s' := OnStatus(s, v);
            && (s.loop != "" ==> s'.loop == s.loop)
            && (s.turn != NoTurn ==> s'.turn != NoTurn && s.turn.gen <= s'.turn.gen)
            && s'.sent == s.sent
  {
    hide AllowIdleComplete;
  }

  lemma EventKeepsBindings(s: Session, v: View, sendError: string)
    requires v.body.Event?
    ensures var s' := OnEvent(s, v, sendError);
            s'.loop == s.loop && s'.turn == s.turn && s.sent <= s'.sent
  {
  }

  lemma StepKeepsBindings(s: Session, input: Input<View>)
    ensures var s' := Step(s, input);
            && (s.loop != "" ==> s'.loop == s.loop)
            && (s.turn != NoTurn ==> s'.turn != NoTurn && s.turn.gen <= s'.turn.gen)
            && s.sent <= s'.sent
  {
    hide OnStatus, OnEvent, ForeignLoop, ForeignTurn;
    if input.Got? && !ForeignLoop(s, input.frame) {
      if input.frame.body.Status? {
        StatusKeepsBindings(s, input.frame);
      } else if input.frame.body.Event? {
        EventKeepsBindings(s, input.frame, input.sendError);
      }
    }
  }

  /** Once bound, the loop id stays for the rest of the run; a turn binding is never lost and its
      generation never goes back. */
  lemma {:induction false} BindingsKept(loop: string, inputs: seq<Input<View>>, j: nat)
    requires j <= |inputs|
    ensures var early, late := Run(loop, inputs[..j]), Run(loop, inputs);
            && (early.loop != "" ==> late.loop == early.loop)
            && (early.turn != NoTurn ==> late.turn != NoTurn && early.turn.gen <= late.turn.gen)
            && early.sent <= late.sent
  {
    if j == |inputs| {
      assert inputs[..j] == inputs;
    } else {
      var n := |inputs| - 1;
      assert inputs[..n][..j] == inputs[..j];
      BindingsKept(loop, inputs[..n], j);
      StepKeepsBindings(Run(loop, inputs[..n]), inputs[n]);
    }
  }

  // ---------------------------------------------------------------- closed forms

  /** The turns of the running statuses that the session accepted, in order. */
  function Announced(loop: string, inputs: seq<Input<View>>): (turns: seq<Turn>)
    ensures forall i :: 0 <= i < |turns| ==> turns[i] != NoTurn
  {
    if inputs == [] then []
    else
      var turns := Announced(loop, inputs[..|inputs| - 1]);
      var s, input := Run(loop, inputs[..|inputs| - 1]), inputs[|inputs| - 1];
      if s.outcome == Streaming && Announces(s, input) then turns + [input.frame.turn] else turns
  }

  predicate Announces(s: Session, input: Input<View>) {
    input.Got? && input.frame.body == Status(Running) && !ForeignLoop(s, input.frame) && input.frame.turn != NoTurn
  }

  lemma TurnStep(s: Session, input: Input<View>)
    ensures Step(s, input).turn ==
            if s.outcome == Streaming && Announces(s, input) && Replaces(s.turn, input.frame.turn) then input.frame.turn
            else s.turn
  {
    hide ForeignLoop, AllowIdleComplete;
  }

  /** The bound turn is the last accepted one of the greatest valid generation, or the first accepted
      when no generation is valid: the same closed form as that of the gate. */
  lemma {:induction false} SessionBinding(loop: string, inputs: seq<Input<View>>)
    ensures Run(loop, inputs).turn == Binding(Announced(loop, inputs))
  {
    hide Step, Announces, Binding, Replaces;
    if inputs == [] {
      NothingBound();
    } else {
      var pre, input := inputs[..|inputs| - 1], inputs[|inputs| - 1];
      SessionBinding(loop, pre);
      TurnStep(Run(loop, pre), input);
      if Run(loop, pre).outcome == Streaming && Announces(Run(loop, pre), input) {
        AnnouncedTurn(Run(loop, pre), input);
        BindingStep(Announced(loop, pre), input.frame.turn);
      }
    }
  }

  lemma NothingBound()
    ensures Binding([]) == NoTurn
  {
  }

  lemma AnnouncedTurn(s: Session, input: Input<View>)
    requires Announces(s, input)
    ensures input.Got? && input.frame.turn != NoTurn
  {
  }

  /** Input `i` moves the session from one turn to another. */
  predicate Moves(loop: string, inputs: seq<Input<View>>, i: nat)
    requires i < |inputs|
  {
    Run(loop, inputs[..i]).turn != NoTurn && Run(loop, inputs[..i + 1]).turn != Run(loop, inputs[..i]).turn
  }

  /** At input `j` a progress chunk was sent. */
  predicate SendsProgress(loop: string, inputs: seq<Input<View>>, j: nat)
    requires j < |inputs|
  {
    && Run(loop, inputs[..j + 1]).sent != Run(loop, inputs[..j]).sent
    && inputs[j].Got? && SentProgress(inputs[j].frame)
  }

  /** ... and the session has not moved to another turn since. */
  predicate LiveSent(loop: string, inputs: seq<Input<View>>, j: nat)
    requires j < |inputs|
  {
    SendsProgress(loop, inputs, j) && forall i :: j < i < |inputs| ==> !Moves(loop, inputs, i)
  }

  predicate SomeLive(loop: string, inputs: seq<Input<View>>) {
    exists j :: 0 <= j < |inputs| && LiveSent(loop, inputs, j)
  }

  lemma MovesPrefix(loop: string, inputs: seq<Input<View>>, n: nat)
    requires n <= |inputs|
    ensures forall i :: 0 <= i < n ==> (Moves(loop, inputs, i) <==> Moves(loop, inputs[..n], i))
    ensures forall i :: 0 <= i < n ==> (SendsProgress(loop, inputs, i) <==> SendsProgress(loop, inputs[..n], i))
  {
    hide Run;
    forall i | 0 <= i < n
      ensures Moves(loop, inputs, i) <==> Moves(loop, inputs[..n], i)
      ensures SendsProgress(loop, inputs, i) <==> SendsProgress(loop, inputs[..n], i)
    {
      assert inputs[..n][..i] == inputs[..i] && inputs[..n][..i + 1] == inputs[..i + 1];
    }
  }

  lemma LiveStep(loop: string, inputs: seq<Input<View>>)
    requires inputs != []
    ensures var n := |inputs| - 1;
            SomeLive(loop, inputs) <==>
            SendsProgress(loop, inputs, n) || (SomeLive(loop, inputs[..n]) && !Moves(loop, inputs, n))
  {
    hide Moves, SendsProgress;
    var n := |inputs| - 1;
    var pre := inputs[..n];
    MovesPrefix(loop, inputs, n);
    if SendsProgress(loop, inputs, n) {
      assert LiveSent(loop, inputs, n);
    } else if SomeLive(loop, pre) && !Moves(loop, inputs, n) {
      var j :| 0 <= j < n && LiveSent(loop, pre, j);
      assert LiveSent(loop, inputs, j);
    }
    if SomeLive(loop, inputs) && !SendsProgress(loop, inputs, n) {
      var j :| 0 <= j <= n && LiveSent(loop, inputs, j);
      assert LiveSent(loop, pre, j);
    }
  }

  /** How one step changes the progress of a session that goes on. */
  lemma SessionProgressStep(s: Session, input: Input<View>)
    ensures var s' := Step(s, input);
            s.outcome == Streaming && s'.outcome == Streaming ==>
              (s'.progress <==>
                 || (s'.sent != s.sent && input.Got? && SentProgress(input.frame))
                 || (s.progress && (s.turn == NoTurn || s'.turn == s.turn)))
  {
    hide ForeignLoop, ForeignTurn, AllowIdleComplete;
  }

  /** While a session goes on, it has seen progress exactly when it has sent a progress chunk and has
      not moved to another turn since. */
  lemma {:induction false} ProgressIsLive(loop: string, inputs: seq<Input<View>>)
    requires Run(loop, inputs).outcome == Streaming
    ensures Run(loop, inputs).progress <==> SomeLive(loop, inputs)
  {
    hide Step, SomeLive;
    if inputs == [] {
      NoneLive(loop);
    } else {
      var n := |inputs| - 1;
      var s := Run(loop, inputs[..n]);
      StaysEnded(s, inputs[n]);
      ProgressIsLive(loop, inputs[..n]);
      assert inputs[..n + 1] == inputs;
      LiveStep(loop, inputs);
      SessionProgressStep(s, inputs[n]);
    }
  }

  lemma NoneLive(loop: string)
    ensures !SomeLive(loop, [])
  {
  }

  lemma StaysEnded(s: Session, input: Input<View>)
    ensures s.outcome != Streaming ==> Step(s, input) == s
  {
  }

  /** An end by turn-end, or by idle without a cancellation, has a progress chunk sent before it and
      after the last change of turn, and is for the turn of the closed form. */
  lemma SessionEndIsLive(loop: string, inputs: seq<Input<View>>, k: nat)
    requires k < |inputs| && Run(loop, inputs[..k]).outcome == Streaming && Run(loop, inputs[..k + 1]).outcome.Ended?
    ensures var s, end := Run(loop, inputs[..k]), Run(loop, inputs[..k + 1]).outcome.kind;
            end == StreamEnd || (end == Idle && !s.cancelSeen) ==>
              && SomeLive(loop, inputs[..k]) && s.queryStarted && inputs[k].Got?
              && Binding(Announced(loop, inputs[..k])) != NoTurn
              && (end == StreamEnd ==> inputs[k].frame.body.Event? && inputs[k].frame.body.eventTurn == s.turn)
              && (end == Idle ==> inputs[k].frame.turn == s.turn)
              && s.turn == Binding(Announced(loop, inputs[..k]))
  {
    hide SomeLive, Binding, Announced;
    assert inputs[..k + 1][..k] == inputs[..k];
    ProgressIsLive(loop, inputs[..k]);
    SessionBinding(loop, inputs[..k]);
    EndStep(Run(loop, inputs[..k]), inputs[k]);
  }

  lemma EndStep(s: Session, input: Input<View>)
    requires s.outcome == Streaming && Step(s, input).outcome.Ended?
    ensures var end := Step(s, input).outcome.kind;
            end == StreamEnd || (end == Idle && !s.cancelSeen) ==>
              && s.progress && s.queryStarted && s.turn != NoTurn && input.Got?
              && (end == StreamEnd ==> input.frame.body.Event? && input.frame.body.eventTurn == s.turn)
              && (end == Idle ==> input.frame.turn == s.turn)
  {
    hide ForeignLoop, ForeignTurn, Replaces;
  }

  // ---------------------------------------------------------------- exactly what is sent, and the end

  /** The frame is for this session: it names no other loop than the bound one, and, once a turn is
      bound, an event or status names that turn. A running status may name any turn, and a stopped or
      idle status none. */
  predicate Passes(s: Session, v: View) {
    && (s.loop == "" || v.loop == "" || v.loop == s.loop)
    && (|| s.turn == NoTurn || v.turn == s.turn
        || v.body == Status(Running)
        || (v.turn == NoTurn && v.body in {Status(Stopping), Status(Idling)})
        || !(v.body.Status? || v.body.Event?))
  }

  lemma PassesFilters(s: Session, v: View)
    ensures Passes(s, v) <==> !ForeignLoop(s, v) && !ForeignTurn(s, v)
    ensures Passes(s, v) && v.body == Status(Idling) && s.turn != NoTurn ==> v.turn in {NoTurn, s.turn}
  {
  }

  /** A turn-end event of the bound turn, after running and progress. */
  predicate EndsTurn(s: Session, v: View) {
    v.body.Event? && v.body.turnEnd && s.queryStarted && s.progress && s.turn != NoTurn && v.body.eventTurn == s.turn
  }

  /** The chunk of the frame goes out unless the send fails: an event for this session that is not
      dropped and is no turn end, or one that ends the turn. */
  predicate GoesOut(s: Session, v: View) {
    Passes(s, v) && v.body.Event? && !v.body.dropped && (!v.body.turnEnd || EndsTurn(s, v))
  }

  predicate SendsOut(s: Session, input: Input<View>) {
    s.outcome == Streaming && input.Got? && input.sendError == "" && GoesOut(s, input.frame)
  }

  /** The frames that met a streaming session that lets them out, in order. */
  function GoingOut(loop: string, inputs: seq<Input<View>>): seq<View> {
    if inputs == [] then []
    else
      var pre, input := inputs[..|inputs| - 1], inputs[|inputs| - 1];
      var s := Run(loop, pre);
      GoingOut(loop, pre) + if SendsOut(s, input) then [input.frame] else []
  }

  lemma SentStep(s: Session, input: Input<View>)
    ensures Step(s, input).sent == s.sent + if SendsOut(s, input) then [input.frame] else []
  {
    hide OnStatus, ForeignLoop, ForeignTurn, Passes;
    if input.Got? {
      PassesFilters(s, input.frame);
      if input.frame.body.Status? && Passes(s, input.frame) {
        StatusKeepsBindings(s, input.frame);
      }
    }
  }

  /** In every run the chunks sent are exactly those. */
  lemma {:induction false} SentExactly(loop: string, inputs: seq<Input<View>>)
    ensures Run(loop, inputs).sent == GoingOut(loop, inputs)
  {
    hide Step, SendsOut;
    if inputs != [] {
      SentExactly(loop, inputs[..|inputs| - 1]);
      SentStep(Run(loop, inputs[..|inputs| - 1]), inputs[|inputs| - 1]);
    }
  }

  /** The outcome with which an input ends a streaming session. */
  function EndOf(s: Session, input: Input<View>): Outcome {
    match input
    case Broken(message) => Failed(message)
    case Closed(alive) => if alive || !s.queryStarted then Quiet else Lost
    case Got(v, sendError) =>
      if Passes(s, v) && v.body.Failure? then Failed(v.body.message)
      else if GoesOut(s, v) && sendError != "" then Failed(sendError)
      else if GoesOut(s, v) && v.body.turnEnd then Ended(StreamEnd, v.body.endState)
      else if v.body == Status(Stopping) && Passes(s, v) && s.queryStarted && v.turn == s.turn then
        Ended(Stopped, "stopped")
      else if v.body == Status(Stopping) && Passes(s, v) && s.queryStarted && s.turn == NoTurn then
        Ended(Stopped, "stopped")
      else if && v.body == Status(Idling) && Passes(s, v) && s.queryStarted && s.turn != NoTurn
              && (s.cancelSeen || (s.progress && v.turn == s.turn)) then
        Ended(Idle, "idle")
      else Streaming
  }

  lemma EndOfStep(s: Session, input: Input<View>)
    requires s.outcome == Streaming
    ensures Step(s, input).outcome == EndOf(s, input)
  {
    hide Replaces, ForeignLoop, ForeignTurn, Passes;
    if input.Got? {
      PassesFilters(s, input.frame);
    }
  }

  function EndAt(loop: string, inputs: seq<Input<View>>, k: nat): Outcome
    requires k < |inputs|
  {
    EndOf(Run(loop, inputs[..k]), inputs[k])
  }

  /** The session has ended exactly when some input ended it, and as the first such input does. */
  lemma {:induction false} SessionEndsExactly(loop: string, inputs: seq<Input<View>>)
    ensures Run(loop, inputs).outcome == Streaming ==>
              forall k :: 0 <= k < |inputs| ==> EndAt(loop, inputs, k) == Streaming
    ensures Run(loop, inputs).outcome != Streaming ==>
              exists k :: && 0 <= k < |inputs| && Run(loop, inputs).outcome == EndAt(loop, inputs, k)
                          && forall i :: 0 <= i < k ==> EndAt(loop, inputs, i) == Streaming
  {
    hide Step, EndOf;
    if inputs != [] {
      var n := |inputs| - 1;
      var pre := inputs[..n];
      SessionEndsExactly(loop, pre);
      assert forall i :: 0 <= i <= n ==> pre[..i] == inputs[..i];
      assert forall i :: 0 <= i < n ==> EndAt(loop, pre, i) == EndAt(loop, inputs, i);
      StaysEnded(Run(loop, pre), inputs[n]);
      if Run(loop, pre).outcome == Streaming {
        EndOfStep(Run(loop, pre), inputs[n]);
        assert EndAt(loop, inputs, n) == Run(loop, inputs).outcome;
      }
    }
  }

  /** A streaming session takes in a frame for it. */
  predicate TakesIn(loop: string, inputs: seq<Input<View>>, k: nat)
    requires k < |inputs|
  {
    Run(loop, inputs[..k]).outcome == Streaming && inputs[k].Got? && Passes(Run(loop, inputs[..k]), inputs[k].frame)
  }

  lemma TakesInPrefix(loop: string, inputs: seq<Input<View>>, n: nat)
    requires n <= |inputs|
    ensures forall k :: 0 <= k < n ==> (TakesIn(loop, inputs, k) <==> TakesIn(loop, inputs[..n], k))
  {
    hide Run, Passes;
    forall k | 0 <= k < n
      ensures TakesIn(loop, inputs, k) <==> TakesIn(loop, inputs[..n], k)
    {
      assert inputs[..n][..k] == inputs[..k];
    }
  }

  /** What else a step does: a running status starts the query, a cancellation reply is noted, and a
      dropped event is counted, each for this session only; a status binds its loop. */
  lemma FlagsStep(s: Session, input: Input<View>)
    ensures var s' := Step(s, input);
            var takes := s.outcome == Streaming && input.Got? && Passes(s, input.frame);
            && (s'.queryStarted <==> s.queryStarted || (takes && input.frame.body == Status(Running)))
            && (s'.cancelSeen <==> s.cancelSeen || (takes && input.frame.body == CommandReply(true)))
            && s'.filtered
               == s.filtered + (if takes && input.frame.body.Event? && input.frame.body.dropped then 1 else 0)
            && s'.loop
               == (if takes && input.frame.body.Status? && input.frame.loop != "" then input.frame.loop else s.loop)
  {
    hide AllowIdleComplete, Replaces, ForeignLoop, ForeignTurn, Passes;
    if input.Got? {
      PassesFilters(s, input.frame);
    }
  }

  predicate TakesInBody(loop: string, inputs: seq<Input<View>>, body: Body) {
    exists k :: 0 <= k < |inputs| && TakesIn(loop, inputs, k) && inputs[k].frame.body == body
  }

  /** After any run the query has started exactly when a running status was taken in, and a
      cancellation is noted exactly when such a reply was. */
  lemma {:induction false} FlagsExactly(loop: string, inputs: seq<Input<View>>)
    ensures Run(loop, inputs).queryStarted <==> TakesInBody(loop, inputs, Status(Running))
    ensures Run(loop, inputs).cancelSeen <==> TakesInBody(loop, inputs, CommandReply(true))
  {
    hide Step, TakesInBody;
    if inputs == [] {
      NothingTakenIn(loop);
    } else {
      var n := |inputs| - 1;
      FlagsExactly(loop, inputs[..n]);
      FlagsStep(Run(loop, inputs[..n]), inputs[n]);
      TakesInStep(loop, inputs, Status(Running));
      TakesInStep(loop, inputs, CommandReply(true));
    }
  }

  lemma NothingTakenIn(loop: string)
    ensures forall body :: !TakesInBody(loop, [], body)
  {
  }

  lemma TakesInStep(loop: string, inputs: seq<Input<View>>, body: Body)
    requires inputs != []
    ensures var n := |inputs| - 1;
            TakesInBody(loop, inputs, body) <==>
            TakesInBody(loop, inputs[..n], body) || (TakesIn(loop, inputs, n) && inputs[n].frame.body == body)
  {
    hide TakesIn;
    var n := |inputs| - 1;
    TakesInPrefix(loop, inputs, n);
    assert forall k :: 0 <= k < n ==> inputs[..n][k] == inputs[k];
    TakesInGot(loop, inputs);
    TakesInGot(loop, inputs[..n]);
  }

  lemma TakesInGot(loop: string, inputs: seq<Input<View>>)
    ensures forall k :: 0 <= k < |inputs| && TakesIn(loop, inputs, k) ==> inputs[k].Got?
  {
  }

  // ---------------------------------------------------------------- simulation

  /** A message and the frame it travels in, as the two machines see them: the frame says no
      more than the message, and announces the turns the message announces. */
  predicate Agree(m: Signal, v: View) {
    && (v.body == Status(Running) ==> m.running)
    && (m.running && m.statusTurn != NoTurn ==> v.body == Status(Running))
    && (v.body.Status? ==>
          && v.turn == m.statusTurn
          && (v.body.state == Stopping ==> m.stopped)
          && (v.body.state == Idling ==> m.idle))
    && (v.body.Event? ==>
          && !m.stopped && !m.idle
          && (v.body.progress ==> m.progress)
          && (v.body.turnEnd ==> m.turnEnd && m.eventTurn == v.body.eventTurn))
    && v.body != CommandReply(true)
  }

  /** The frame says exactly what the message says, as far as that can matter: an idle status that
      names no turn never does. */
  predicate AgreeFully(m: Signal, v: View) {
    && Agree(m, v)
    && (v.body.Event? || v.body.Status?)
    && (v.body.Event? ==> v.body.progress == m.progress && v.body.turnEnd == m.turnEnd && WellFormed(v))
    && (v.body.Status? ==>
          && !m.progress && !m.turnEnd
          && (m.stopped ==> v.body.state == Stopping)
          && (m.idle && m.statusTurn != NoTurn ==> v.body.state == Idling))
    && (m.running ==> v.body == Status(Running))
  }

  predicate OneLoop(loop: string, views: seq<View>, only: string) {
    loop in {"", only} && forall i :: 0 <= i < |views| ==> views[i].loop in {"", only}
  }

  /** The inputs of a stream of frames with no failed read or send. */
  function Delivered(views: seq<View>): seq<Input<View>> {
    seq(|views|, i requires 0 <= i < |views| => Got(views[i], ""))
  }

  /** The session after a stream of frames. */
  function After(loop: string, views: seq<View>): Session {
    Run(loop, Delivered(views))
  }

  /** The two machines side by side: as long as neither has ended, they agree on the binding,
      and the boundary has seen at least what the session has. */
  predicate Simulates(b: Boundary, s: Session, only: string) {
    && s.loop in {"", only}
    && (b.Ended()
        || (&& (s.outcome == Streaming || s.outcome.Failed?)
            && (s.outcome == Streaming ==>
                  && (s.queryStarted ==> b.gate.sawRunning) && b.gate.expected == s.turn
                  && (s.progress ==> b.gate.sawProgress)
                  && !b.gate.cancellationSeen && !s.cancelSeen)))
  }

  lemma SimulationStatus(b: Boundary, s: Session, m: Signal, v: View, only: string)
    requires Simulates(b, s, only) && Agree(m, v) && v.loop in {"", only} && v.body.Status?
    ensures Simulates(Fed(b, m), Step(s, Got(v, "")), only)
  {
    hide OnEvent;
  }

  lemma SimulationStep(b: Boundary, s: Session, m: Signal, v: View, only: string)
    requires Simulates(b, s, only) && Agree(m, v) && v.loop in {"", only}
    ensures Simulates(Fed(b, m), Step(s, Got(v, "")), only)
  {
    hide OnStatus;
    if v.body.Status? {
      SimulationStatus(b, s, m, v, only);
    }
  }

  lemma DeliveredPrefix(views: seq<View>)
    requires views != []
    ensures Delivered(views)[..|views| - 1] == Delivered(views[..|views| - 1])
  {
  }

  lemma {:induction false} SimulationRun(loop: string, ms: seq<Signal>, views: seq<View>, only: string)
    requires |ms| == |views| && OneLoop(loop, views, only)
    requires forall i :: 0 <= i < |ms| ==> Agree(ms[i], views[i])
    ensures Simulates(TurnProtocol.Run(false, ms), After(loop, views), only)
  {
    if ms != [] {
      var n := |ms| - 1;
      SimulationRun(loop, ms[..n], views[..n], only);
      DeliveredPrefix(views);
      SimulationStep(TurnProtocol.Run(false, ms[..n]), After(loop, views[..n]), ms[n], views[n], only);
    }
  }

  /** On any stream of one loop without a cancellation reply, when the session has ended the turn
      by stopped, idle or turn-end, so has the boundary. */
  lemma SessionEndImpliesBoundaryEnd(loop: string, ms: seq<Signal>, views: seq<View>, only: string)
    requires |ms| == |views| && OneLoop(loop, views, only)
    requires forall i :: 0 <= i < |ms| ==> Agree(ms[i], views[i])
    ensures After(loop, views).outcome.Ended? ==> TurnProtocol.Run(false, ms).Ended()
  {
    SimulationRun(loop, ms, views, only);
  }

  /** Every event frame carries the turn bound when it arrives, and none is dropped early. */
  predicate Attributed(ms: seq<Signal>, views: seq<View>)
    requires |ms| == |views|
  {
    forall i :: 0 <= i < |views| && views[i].body.Event? ==>
      && !views[i].body.dropped
      && (Bound(ms[..i]) == NoTurn || views[i].turn == Bound(ms[..i]))
  }

  /** The two machines in lockstep. */
  predicate InStep(b: Boundary, s: Session, only: string) {
    && s.loop in {"", only}
    && (b.Ended() <==> s.outcome != Streaming)
    && (b.Ended() ==> s.outcome.Ended? && s.outcome.kind == b.reason)
    && (!b.Ended() ==>
          b.gate == Gate(s.queryStarted, s.progress, s.turn, false) && !s.cancelSeen)
  }

  /** An idle status that only the boundary recognises. */
  predicate Mute(m: Signal, v: View) {
    v.body == Status(OtherState) && m == Signal(false, false, true, v.turn, false, false, NoTurn)
  }

  /** Every frame says exactly what its message says, or is an idle status that only the boundary
      recognises, in a stream without progress. */
  predicate Alike(ms: seq<Signal>, views: seq<View>)
    requires |ms| == |views|
  {
    forall i :: 0 <= i < |ms| ==>
      AgreeFully(ms[i], views[i]) || (Mute(ms[i], views[i]) && forall j :: 0 <= j < |ms| ==> !ms[j].progress)
  }

  lemma LockStep(b: Boundary, s: Session, m: Signal, v: View, only: string)
    requires InStep(b, s, only) && v.loop in {"", only}
    requires AgreeFully(m, v) || (Mute(m, v) && (b.Ended() || !b.gate.sawProgress))
    requires !b.Ended() && v.body.Event? ==> !v.body.dropped && (s.turn == NoTurn || v.turn == s.turn)
    ensures InStep(Fed(b, m), Step(s, Got(v, "")), only)
  {
  }

  lemma BoundUntilEnd(ms: seq<Signal>)
    requires !TurnProtocol.Run(false, ms).Ended()
    ensures TurnProtocol.Run(false, ms).gate.expected == Bound(ms)
    ensures (forall j :: 0 <= j < |ms| ==> !ms[j].progress) ==> !TurnProtocol.Run(false, ms).gate.sawProgress
  {
    GateUntilEnd(false, ms);
    GateMeaning(false, ms);
  }

  /** If moreover every event carries the bound turn and none is dropped early, the boundary and
      the session end at the same frame, for the same kind of reason. */
  lemma {:induction false} SameEnd(loop: string, ms: seq<Signal>, views: seq<View>, only: string)
    requires |ms| == |views| && OneLoop(loop, views, only)
    requires Alike(ms, views) && Attributed(ms, views)
    ensures InStep(TurnProtocol.Run(false, ms), After(loop, views), only)
  {
    hide Step, Fed, AgreeFully, Meaning, ObserveAll, Mute;
    if ms != [] {
      var n := |ms| - 1;
      assert forall i :: 0 <= i < n ==> ms[..n][..i] == ms[..i];
      SameEnd(loop, ms[..n], views[..n], only);
      DeliveredPrefix(views);
      var b := TurnProtocol.Run(false, ms[..n]);
      if !b.Ended() {
        BoundUntilEnd(ms[..n]);
      }
      LockStep(b, After(loop, views[..n]), ms[n], views[n], only);
    }
  }
}
