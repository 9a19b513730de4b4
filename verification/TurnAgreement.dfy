/** The two implementations of the turn-end contract agree: the boundary fed with typed messages
    (appkit/turn_boundary.go) and the session fed with the frames of the same messages
    (appkit/daemon_session.go). */
module TurnAgreement {
  import opened Text
  import opened TurnId
  import opened Wire
  import opened TurnGate
  import opened TurnProtocol
  import opened DaemonSessions
  import SP = SessionProtocol

  /** The frame a typed message is re-encoded to for the session (client.go). An empty field, which
      the encoder leaves out, reads the same as an absent one. */
  function FrameOf(m: Msg): Json
    requires Typed(m)
  {
    match m
    case StatusMsg(state, turnId, loopId) =>
      Obj(map["type" := Str("status"), "state" := Str(state), "turn_id" := Str(turnId), "loop_id" := Str(loopId)])
    case EventMsg(namespace, mode, data, turnId, loopId) =>
      Obj(map["type" := Str("event"), "namespace" := namespace, "mode" := Str(mode), "data" := data,
              "turn_id" := Str(turnId), "loop_id" := Str(loopId)])
  }

  function Views(drop: EarlyDrop, ms: seq<Msg>): seq<SP.View>
    requires AllTyped(ms)
  {
    seq(|ms|, i requires 0 <= i < |ms| => ViewOf(drop, FrameOf(ms[i])))
  }

  /** The session after the frames of a stream of messages. */
  function SessionAfter(drop: EarlyDrop, loop: string, ms: seq<Msg>): SP.Session
    requires AllTyped(ms)
  {
    SP.After(loop, Views(drop, ms))
  }

  /** A state the boundary recognises is spelled exactly, where that matters: the boundary ignores
      case and surrounding white space, the session does not. An idle status that names no turn ends
      none, however it is spelled. */
  predicate Canonical(m: Msg) {
    m.StatusMsg? ==>
      && (HasState(m, "running") ==> m.state == "running")
      && (HasState(m, "stopped") ==> m.state == "stopped")
      && (HasState(m, "idle") && TurnOf(m.turnId) != NoTurn ==> m.state == "idle")
  }

  /** So is a running status that names a turn: the one case in which the session could end a turn
      alone. */
  predicate CanonicalRunning(m: Msg) {
    m.StatusMsg? && HasState(m, "running") && TurnOf(m.turnId) != NoTurn ==> m.state == "running"
  }

  predicate OneLoopOf(loop: string, ms: seq<Msg>, only: string)
    requires AllTyped(ms)
  {
    loop in {"", only} && forall i :: 0 <= i < |ms| ==> ms[i].loopId in {"", only}
  }

  lemma StatusFrame(drop: EarlyDrop, m: Msg)
    requires m.StatusMsg?
    ensures var v := ViewOf(drop, FrameOf(m));
            v.loop == m.loopId && v.turn == TurnOf(m.turnId) && v.body == SP.Status(StateOf(m.state))
  {
    var f := FrameOf(m);
    assert StrField(f, "type") == "status" && StrField(f, "state") == m.state;
    assert StrField(f, "turn_id") == m.turnId && Get(f, "data") == Null;
    TurnOfTrim(m.turnId);
  }

  lemma EventFrame(drop: EarlyDrop, m: Msg)
    requires m.EventMsg?
    ensures var v := ViewOf(drop, FrameOf(m));
            && v.loop == m.loopId && v.body.Event? && v.chunk == SP.Chunk(m.namespace, m.mode, m.data)
            && v.body.endState
               == (if StrField(m.data, "type") == "soothe.stream.end" then "stream_end" else "completed")
            && v.body.progress == IsTurnProgressChunk(m.mode, m.data)
            && v.body.turnEnd == (m.mode == "custom" && IsTurnEndCustomData(m.data))
            && v.body.eventTurn == TurnOf(EventTurn(m))
            && v.body.dropped == drop(m.namespace, m.mode, m.data)
            && (TurnOf(m.turnId) != NoTurn ==> v.turn == TurnOf(m.turnId))
  {
    var f := FrameOf(m);
    assert StrField(f, "type") == "event" && ChunkOf(f) == SP.Chunk(m.namespace, m.mode, m.data);
    assert StrField(f, "turn_id") == m.turnId && StrField(f, "loop_id") == m.loopId;
    TurnOfTrim(m.turnId);
  }

  /** The boundary recognises every state the session does. */
  lemma ExactWords(m: Msg)
    requires m.StatusMsg?
    ensures forall word :: word in {"running", "stopped", "idle"} && m.state == word ==> HasState(m, word)
  {
    TrimOfTrimmed("running");
    TrimOfTrimmed("stopped");
    TrimOfTrimmed("idle");
  }

  /** A message says the same to both machines exactly when it is canonical, and no more to the
      session than to the boundary exactly when a running status that names a turn is. */
  lemma CanonicalAgrees(drop: EarlyDrop, m: Msg)
    requires Typed(m)
    ensures SP.AgreeFully(Read(m), ViewOf(drop, FrameOf(m))) <==> Canonical(m)
    ensures SP.Agree(Read(m), ViewOf(drop, FrameOf(m))) <==> CanonicalRunning(m)
  {
    hide HasState, Read, ViewOf, FrameOf, TurnOf, EventTurn, IsTurnProgressChunk, IsTurnEndCustomData;
    if m.StatusMsg? {
      StatusFrame(drop, m);
      ReadStatus(m);
      ExactWords(m);
    } else {
      ReadEvent(m);
      EventFrame(drop, m);
      if IsTurnEnd(m) {
        TurnEndIsNotProgress(m.data);
      }
    }
  }

  lemma AllAgree(drop: EarlyDrop, loop: string, ms: seq<Msg>, only: string)
    requires AllTyped(ms) && OneLoopOf(loop, ms, only)
    ensures SP.OneLoop(loop, Views(drop, ms), only)
    ensures forall i :: 0 <= i < |ms| && CanonicalRunning(ms[i]) ==> SP.Agree(Signals(ms)[i], Views(drop, ms)[i])
    ensures forall i :: 0 <= i < |ms| && Canonical(ms[i]) ==> SP.AgreeFully(Signals(ms)[i], Views(drop, ms)[i])
  {
    hide Read, ViewOf, FrameOf, SP.Agree, SP.AgreeFully, Canonical, CanonicalRunning;
    forall i | 0 <= i < |ms|
      ensures Views(drop, ms)[i].loop == ms[i].loopId
      ensures CanonicalRunning(ms[i]) ==> SP.Agree(Signals(ms)[i], Views(drop, ms)[i])
      ensures Canonical(ms[i]) ==> SP.AgreeFully(Signals(ms)[i], Views(drop, ms)[i])
    {
      CanonicalAgrees(drop, ms[i]);
      if ms[i].StatusMsg? {
        StatusFrame(drop, ms[i]);
      } else {
        EventFrame(drop, ms[i]);
      }
    }
  }

  /** On every stream of typed messages of one loop whose announced turns are spelled exactly, whatever
      chunks are dropped early: when the session has ended the turn, the boundary has ended it too. */
  lemma SessionEndsOnlyWithBoundary(drop: EarlyDrop, loop: string, ms: seq<Msg>, only: string)
    requires AllTyped(ms) && OneLoopOf(loop, ms, only)
    requires forall i :: 0 <= i < |ms| ==> CanonicalRunning(ms[i])
    ensures SessionAfter(drop, loop, ms).outcome.Ended? ==> Run(false, Signals(ms)).Ended()
  {
    AllAgree(drop, loop, ms, only);
    SP.SessionEndImpliesBoundaryEnd(loop, Signals(ms), Views(drop, ms), only);
  }

  /** A status that the boundary takes for `word` and the session does not. */
  predicate OddlySpelled(m: Msg, word: string) {
    m.StatusMsg? && word in {"running", "stopped", "idle"} && HasState(m, word) && m.state != word
  }

  /** The filter lets no progress event through. */
  ghost predicate DropsProgress(drop: EarlyDrop) {
    forall e: Msg :: e.EventMsg? && IsProgress(e) ==> drop(e.namespace, e.mode, e.data)
  }

  /** The message is canonical, or an odd idle status that no turn can be ready for. */
  ghost predicate Harmless(drop: EarlyDrop, m: Msg) {
    Canonical(m) || (OddlySpelled(m, "idle") && DropsProgress(drop))
  }

  lemma HarmlessAlike(drop: EarlyDrop, ms: seq<Msg>)
    requires AllTyped(ms) && SP.Attributed(Signals(ms), Views(drop, ms))
    requires forall i :: 0 <= i < |ms| ==> Harmless(drop, ms[i])
    ensures SP.Alike(Signals(ms), Views(drop, ms))
  {
    hide Read, ViewOf, FrameOf, SP.AgreeFully, SP.Mute, SP.Agree, Canonical, CanonicalRunning, IsProgress, HasState;
    var ss, vs := Signals(ms), Views(drop, ms);
    forall i | 0 <= i < |ms|
      ensures SP.AgreeFully(ss[i], vs[i]) || (DropsProgress(drop) && SP.Mute(ss[i], vs[i]))
    {
      CanonicalAgrees(drop, ms[i]);
      if OddlySpelled(ms[i], "idle") {
        OddIsMute(drop, ms[i]);
      }
    }
    if DropsProgress(drop) {
      forall j | 0 <= j < |ms|
        ensures !ss[j].progress
      {
        NoProgressHere(drop, ms[j]);
        assert vs[j].body.Event? ==> !vs[j].body.dropped;
      }
    }
  }

  lemma OddIsMute(drop: EarlyDrop, m: Msg)
    requires OddlySpelled(m, "idle")
    ensures SP.Mute(Read(m), ViewOf(drop, FrameOf(m)))
  {
    hide Read, ViewOf, FrameOf, TurnOf;
    OddSeen(drop, m, "idle");
  }

  lemma NoProgressHere(drop: EarlyDrop, m: Msg)
    requires Typed(m) && DropsProgress(drop)
    ensures var v := ViewOf(drop, FrameOf(m)); Read(m).progress ==> v.body.Event? && v.body.dropped
  {
    hide ViewOf, FrameOf, TurnOf, HasState, IsTurnProgressChunk, IsTurnEndCustomData;
    if m.EventMsg? {
      EventFrame(drop, m);
    }
  }

  /** If every event also carries the turn bound when it arrives and none is dropped early, both
      have ended or neither has, and for the same kind of reason; applied to every prefix, they end
      at the same frame. */
  lemma BoundaryAndSessionEndTogether(drop: EarlyDrop, loop: string, ms: seq<Msg>, only: string)
    requires AllTyped(ms) && OneLoopOf(loop, ms, only)
    requires forall i :: 0 <= i < |ms| ==> Harmless(drop, ms[i])
    requires SP.Attributed(Signals(ms), Views(drop, ms))
    ensures var b, s := Run(false, Signals(ms)), SessionAfter(drop, loop, ms);
            && (b.Ended() <==> s.outcome.Ended?)
            && (b.Ended() ==> s.outcome.kind == b.reason)
  {
    AllAgree(drop, loop, ms, only);
    HarmlessAlike(drop, ms);
    SP.SameEnd(loop, Signals(ms), Views(drop, ms), only);
  }

  // ---------------------------------------------------------------- both machines step by step

  lemma SessionSteps(loop: string, views: seq<SP.View>)
    requires views != []
    ensures SP.After(loop, views) ==
            SP.Step(SP.After(loop, views[..|views| - 1]), SP.Got(views[|views| - 1], ""))
  {
    SP.DeliveredPrefix(views);
  }

  lemma ReadsOf(drop: EarlyDrop, ms: seq<Msg>)
    requires ms != [] && AllTyped(ms)
    ensures Signals(ms)[..|ms| - 1] == Signals(ms[..|ms| - 1])
    ensures Views(drop, ms)[..|ms| - 1] == Views(drop, ms[..|ms| - 1])
  {
  }

  /** One more message for both machines. */
  lemma BothStep(drop: EarlyDrop, loop: string, ms: seq<Msg>, k: nat)
    requires AllTyped(ms) && k < |ms|
    ensures Run(false, Signals(ms[..k + 1])) == Fed(Run(false, Signals(ms[..k])), Read(ms[k]))
    ensures SessionAfter(drop, loop, ms[..k + 1])
         == SP.Step(SessionAfter(drop, loop, ms[..k]), SP.Got(ViewOf(drop, FrameOf(ms[k])), ""))
  {
    hide Read, ViewOf, FrameOf, Fed, SP.Step, SP.After, Typed;
    ReadsOf(drop, ms[..k + 1]);
    assert ms[..k + 1][..k] == ms[..k];
    SessionSteps(loop, Views(drop, ms[..k + 1]));
  }

  lemma ReadEvent(m: Msg)
    requires m.EventMsg?
    ensures Read(m) == Signal(false, false, false, NoTurn, IsTurnProgressChunk(m.mode, m.data),
                              m.mode == "custom" && IsTurnEndCustomData(m.data), TurnOf(EventTurn(m)))
  {
  }

  lemma NothingFed(drop: EarlyDrop)
    ensures Run(false, Signals([])) == Fresh(false) && SessionAfter(drop, "", []) == SP.Start("")
  {
  }

  lemma FirstTwo(drop: EarlyDrop, ms: seq<Msg>)
    requires AllTyped(ms) && |ms| >= 2
    ensures Run(false, Signals(ms[..2])) == Fed(Fed(Fresh(false), Read(ms[0])), Read(ms[1]))
    ensures SessionAfter(drop, "", ms[..2])
         == SP.Step(SP.Step(SP.Start(""), SP.Got(ViewOf(drop, FrameOf(ms[0])), "")),
                    SP.Got(ViewOf(drop, FrameOf(ms[1])), ""))
  {
    hide Read, ViewOf, FrameOf, Fed, SP.Step, Signals, SessionAfter, Run;
    NothingFed(drop);
    assert ms[..0] == [];
    BothStep(drop, "", ms, 0);
    BothStep(drop, "", ms, 1);
  }

  lemma FirstThree(drop: EarlyDrop, ms: seq<Msg>)
    requires AllTyped(ms) && |ms| == 3
    ensures Run(false, Signals(ms)) == Fed(Fed(Fed(Fresh(false), Read(ms[0])), Read(ms[1])), Read(ms[2]))
    ensures SessionAfter(drop, "", ms)
         == SP.Step(SP.Step(SP.Step(SP.Start(""), SP.Got(ViewOf(drop, FrameOf(ms[0])), "")),
                            SP.Got(ViewOf(drop, FrameOf(ms[1])), "")), SP.Got(ViewOf(drop, FrameOf(ms[2])), ""))
  {
    hide Read, ViewOf, FrameOf, Fed, SP.Step, Signals, SessionAfter, Run;
    FirstTwo(drop, ms);
    BothStep(drop, "", ms, 2);
    assert ms[..3] == ms;
  }

  /** A status message of the given turn, spelled exactly, with no loop id. */
  predicate StatusOf(m: Msg, state: string, turn: Turn) {
    m.StatusMsg? && m.state == state && TurnOf(m.turnId) == turn && m.loopId == ""
  }

  /** A progress event of the given turn, with no loop id. */
  predicate ProgressOf(m: Msg, turn: Turn) {
    m.EventMsg? && IsProgress(m) && TurnOf(m.turnId) == turn && m.loopId == ""
  }

  function StatusSignal(word: string, turn: Turn): Signal {
    Signal(word == "running", word == "stopped", word == "idle", turn, false, false, NoTurn)
  }

  lemma PlainSeen(drop: EarlyDrop, m: Msg, word: string, turn: Turn)
    requires word in {"running", "stopped", "idle"} && StatusOf(m, word, turn)
    ensures Canonical(m) && CanonicalRunning(m)
    ensures Read(m) == StatusSignal(word, turn)
    ensures var v := ViewOf(drop, FrameOf(m)); v.loop == "" && v.turn == turn && v.body == SP.Status(StateOf(word))
  {
    hide Read, ViewOf, FrameOf, TurnOf, HasState;
    StatusFrame(drop, m);
    ReadStatus(m);
    ExactWords(m);
    OneRole(m);
  }

  lemma OddSeen(drop: EarlyDrop, m: Msg, word: string)
    requires OddlySpelled(m, word)
    ensures Read(m) == StatusSignal(word, TurnOf(m.turnId))
    ensures var v := ViewOf(drop, FrameOf(m));
            v.loop == m.loopId && v.turn == TurnOf(m.turnId) && v.body == SP.Status(SP.OtherState)
  {
    hide Read, ViewOf, FrameOf, TurnOf, HasState;
    StatusFrame(drop, m);
    ReadStatus(m);
    ExactWords(m);
    OneRole(m);
  }

  lemma ProgressSeenByBoth(drop: EarlyDrop, m: Msg, turn: Turn)
    requires ProgressOf(m, turn) && turn != NoTurn
    ensures Read(m) == Signal(false, false, false, NoTurn, true, false, TurnOf(EventTurn(m)))
    ensures var v := ViewOf(drop, FrameOf(m));
            && v.loop == "" && v.turn == turn && v.body.Event? && v.body.progress && !v.body.turnEnd
            && v.body.dropped == drop(m.namespace, m.mode, m.data)
  {
    hide Read, ViewOf, FrameOf, TurnOf, EventTurn, IsTurnProgressChunk, IsTurnEndCustomData;
    EventFrame(drop, m);
    ReadEvent(m);
    OneRole(m);
  }

  /** The frame of a message, fed as a raw map, says to the boundary what the message says, if its
      state is spelled exactly. */
  lemma RawMapReadsAlike(m: Msg)
    requires Typed(m)
    requires m.StatusMsg? ==>
               forall word :: word in {"running", "stopped", "idle"} && HasState(m, word) ==> m.state == word
    ensures var raw, typed := Read(MapMsg(FrameOf(m))), Read(m);
            && raw.running == typed.running && raw.stopped == typed.stopped && raw.idle == typed.idle
            && raw.progress == typed.progress && raw.turnEnd == typed.turnEnd
            && (m.StatusMsg? ==> raw.statusTurn == typed.statusTurn)
            && (m.EventMsg? ==> raw.eventTurn == typed.eventTurn)
  {
    var f := FrameOf(m);
    if m.StatusMsg? {
      assert StrField(f, "type") == "status" && StrField(f, "state") == m.state && StrField(f, "mode") == "";
      assert StrField(f, "turn_id") == m.turnId && Get(f, "data") == Null;
      ExactWords(m);
      ReadStatus(m);
      TurnOfTrim(m.turnId);
    } else {
      assert StrField(f, "type") == "event" && StrField(f, "mode") == m.mode && Get(f, "data") == m.data;
      assert "event"[0] == 'e' && "status"[0] == 's' && StrField(f, "turn_id") == m.turnId;
      ReadEvent(m);
    }
  }

  // ---------------------------------------------------------------- what ends a turn for the session

  lemma NamedChunkSeen(drop: EarlyDrop, m: Msg, turnId: string)
    requires m.EventMsg? && NamesProgress(m.mode, m.data) && m.turnId == turnId && m.loopId == "" && !Blank(turnId)
    ensures var v := ViewOf(drop, FrameOf(m));
            && v.chunk == SP.Chunk(m.namespace, m.mode, m.data) && v.loop == "" && v.turn == TurnOf(turnId)
            && v.body.Event? && v.body.progress && !v.body.turnEnd
            && v.body.dropped == drop(m.namespace, m.mode, m.data)
  {
    hide ViewOf, FrameOf, NamesProgress, IsTurnProgressChunk, IsTurnEndCustomData, TrimSpace, EventTurn;
    ProgressByName(m.mode, m.data);
    EventFrame(drop, m);
    OneRole(m);
  }

  lemma NamedEndSeen(drop: EarlyDrop, m: Msg, turnId: string)
    requires m.EventMsg? && m.mode == "custom" && NamesTurnEnd(m.data) && SpeaksFor(m, turnId)
    requires m.turnId == turnId && m.loopId == "" && !Blank(turnId)
    ensures var v := ViewOf(drop, FrameOf(m));
            && v.chunk == SP.Chunk(m.namespace, m.mode, m.data) && v.loop == "" && v.turn == TurnOf(turnId)
            && v.body.Event? && v.body.turnEnd && v.body.eventTurn == TurnOf(turnId)
            && v.body.endState
               == (if StrField(m.data, "type") == "soothe.stream.end" then "stream_end" else "completed")
            && v.body.dropped == drop(m.namespace, m.mode, m.data)
  {
    hide ViewOf, FrameOf, NamesTurnEnd, IsTurnProgressChunk, IsTurnEndCustomData, TrimSpace, SpeaksFor, EventTurn;
    ReadTurnEnd(m, turnId);
    ReadEvent(m);
    TurnEndByName(m.data);
    EventFrame(drop, m);
  }

  /** A running status of a turn, then a chunk of it that proves progress by name and is not dropped. */
  predicate UnderwayIn(drop: EarlyDrop, ms: seq<Msg>, turnId: string) {
    && |ms| == 3 && AllTyped(ms) && ms[0] == StatusMsg("running", turnId, "") && !Blank(turnId)
    && ms[1].EventMsg? && NamesProgress(ms[1].mode, ms[1].data) && ms[1].turnId == turnId && ms[1].loopId == ""
    && !drop(ms[1].namespace, ms[1].mode, ms[1].data)
  }

  lemma UnderwaySeen(drop: EarlyDrop, ms: seq<Msg>, turnId: string)
    requires UnderwayIn(drop, ms, turnId)
    ensures var s := SP.Step(SP.Step(SP.Start(""), SP.Got(ViewOf(drop, FrameOf(ms[0])), "")),
                             SP.Got(ViewOf(drop, FrameOf(ms[1])), ""));
            && s == SP.Session(true, "", TurnOf(turnId), true, false, [ViewOf(drop, FrameOf(ms[1]))], 0, SP.Streaming)
            && s.sent[0].chunk == SP.Chunk(ms[1].namespace, ms[1].mode, ms[1].data) && TurnOf(turnId) != NoTurn
  {
    hide Read, ViewOf, FrameOf, HasState, NamesProgress, TrimSpace, Canonical, CanonicalRunning;
    PlainSeen(drop, ms[0], "running", TurnOf(turnId));
    NamedChunkSeen(drop, ms[1], turnId);
  }

  /** For the session, too, a turn-end event of the turn then ends it: both chunks are sent, and the
      end state tells the kind of event. */
  lemma NamedProgressLetsSessionEnd(drop: EarlyDrop, ms: seq<Msg>, turnId: string)
    requires UnderwayIn(drop, ms, turnId)
    requires ms[2].EventMsg? && ms[2].mode == "custom" && NamesTurnEnd(ms[2].data) && SpeaksFor(ms[2], turnId)
    requires ms[2].turnId == turnId && ms[2].loopId == "" && !drop(ms[2].namespace, ms[2].mode, ms[2].data)
    ensures var s := SessionAfter(drop, "", ms);
            && |s.sent| == 2 && s.sent[0].chunk == SP.Chunk(ms[1].namespace, ms[1].mode, ms[1].data)
            && s.sent[1].chunk == SP.Chunk(ms[2].namespace, ms[2].mode, ms[2].data)
            && s.outcome == SP.Ended(StreamEnd,
                 if StrField(ms[2].data, "type") == "soothe.stream.end" then "stream_end" else "completed")
  {
    hide ViewOf, FrameOf, TurnOf, SessionAfter, NamesProgress, NamesTurnEnd, SpeaksFor, TrimSpace, Signals;
    UnderwaySeen(drop, ms, turnId);
    NamedEndSeen(drop, ms[2], turnId);
    FirstThree(drop, ms);
  }

  /** ... and so does an idle or a stopped status of the turn. */
  lemma NamedProgressLetsSessionIdle(drop: EarlyDrop, ms: seq<Msg>, turnId: string, word: string)
    requires UnderwayIn(drop, ms, turnId) && word in {"idle", "stopped"} && ms[2] == StatusMsg(word, turnId, "")
    ensures SessionAfter(drop, "", ms).outcome == SP.Ended(if word == "idle" then Idle else Stopped, word)
  {
    hide ViewOf, FrameOf, TurnOf, SessionAfter, NamesProgress, TrimSpace, Signals, Canonical, CanonicalRunning,
      HasState;
    UnderwaySeen(drop, ms, turnId);
    PlainSeen(drop, ms[2], word, TurnOf(turnId));
    FirstThree(drop, ms);
  }

  // ---------------------------------------------------------------- the conditions are exact

  /** Progress of another turn: the boundary counts it, the session does not, so that an idle
      status ends the turn for the boundary alone. */
  lemma ForeignProgressSeparatesThem(drop: EarlyDrop, ms: seq<Msg>, t1: Turn, t2: Turn)
    requires AllTyped(ms) && |ms| == 3 && t1 != NoTurn && t2 != NoTurn && t1 != t2
    requires StatusOf(ms[0], "running", t1) && ProgressOf(ms[1], t2) && StatusOf(ms[2], "idle", t1)
    ensures Run(false, Signals(ms)).reason == Idle
    ensures SessionAfter(drop, "", ms).outcome == SP.Streaming
  {
    hide Read, ViewOf, TurnOf, EventTurn, Signals, SessionAfter, FrameOf, IsProgress;
    PlainSeen(drop, ms[0], "running", t1);
    ProgressSeenByBoth(drop, ms[1], t2);
    PlainSeen(drop, ms[2], "idle", t1);
    FirstThree(drop, ms);
  }

  /** The session has ended the turn only if the boundary has. */
  predicate NotAlone(drop: EarlyDrop, loop: string, ms: seq<Msg>)
    requires AllTyped(ms)
  {
    SessionAfter(drop, loop, ms).outcome.Ended? ==> Run(false, Signals(ms)).Ended()
  }

  /** Typed messages that all announce turns canonically, except perhaps `m`. */
  predicate RunningMix(ms: seq<Msg>, m: Msg) {
    AllTyped(ms) && forall i :: 0 <= i < |ms| ==> ms[i] == m || CanonicalRunning(ms[i])
  }

  /** However `m` is mixed into such streams of one loop, the session never ends a turn alone. */
  ghost predicate NeverAlone(drop: EarlyDrop, m: Msg) {
    forall loop, ms, only :: RunningMix(ms, m) && OneLoopOf(loop, ms, only) ==> NotAlone(drop, loop, ms)
  }

  /** An id without a generation, of another turn than the given one. */
  function OtherId(turnId: string): string {
    if TrimSpace(turnId) == "a" then "b" else "a"
  }

  lemma OtherIdDiffers(turnId: string)
    ensures var t := TurnOf(OtherId(turnId)); t != NoTurn && t != TurnOf(turnId) && t.gen == -1
  {
    TrimOfTrimmed("a");
    TrimOfTrimmed("b");
  }

  /** An odd running status of any turn: the boundary binds that turn, the session does not, and so
      ends another turn alone. */
  lemma OddRunningEndsAlone(drop: EarlyDrop, m: Msg)
    requires OddlySpelled(m, "running") && TurnOf(m.turnId) != NoTurn
    ensures var id := OtherId(m.turnId);
            var ms := [m, StatusMsg("running", id, ""), StatusMsg("stopped", id, "")];
            !NotAlone(drop, "", ms) && RunningMix(ms, m) && OneLoopOf("", ms, m.loopId)
  {
    hide Read, ViewOf, FrameOf, TurnOf, HasState, Signals, SessionAfter, OtherId, CanonicalRunning;
    var id := OtherId(m.turnId);
    var ms := [m, StatusMsg("running", id, ""), StatusMsg("stopped", id, "")];
    OtherIdDiffers(m.turnId);
    OddSeen(drop, m, "running");
    PlainSeen(drop, ms[1], "running", TurnOf(id));
    PlainSeen(drop, ms[2], "stopped", TurnOf(id));
    FirstThree(drop, ms);
  }

  /** The session never ends a turn alone exactly when running statuses that name a turn are spelled
      exactly: a message may be mixed in exactly when it is canonical in that sense. */
  lemma NeverAloneExactly(drop: EarlyDrop, m: Msg)
    requires Typed(m)
    ensures NeverAlone(drop, m) <==> CanonicalRunning(m)
  {
    hide NotAlone, HasState, TurnOf;
    if CanonicalRunning(m) {
      forall loop, ms, only | RunningMix(ms, m) && OneLoopOf(loop, ms, only)
        ensures NotAlone(drop, loop, ms)
      {
        NotAloneMeans(drop, loop, ms);
        SessionEndsOnlyWithBoundary(drop, loop, ms, only);
      }
    } else {
      OddRunningEndsAlone(drop, m);
    }
  }

  lemma NotAloneMeans(drop: EarlyDrop, loop: string, ms: seq<Msg>)
    requires AllTyped(ms)
    ensures NotAlone(drop, loop, ms) <==>
            (SessionAfter(drop, loop, ms).outcome.Ended? ==> Run(false, Signals(ms)).Ended())
  {
  }

  /** Both have ended, for the same kind of reason, or neither has. */
  predicate EndTogether(drop: EarlyDrop, loop: string, ms: seq<Msg>)
    requires AllTyped(ms)
  {
    var b, s := Run(false, Signals(ms)), SessionAfter(drop, loop, ms);
    (b.Ended() <==> s.outcome.Ended?) && (b.Ended() ==> s.outcome.kind == b.reason)
  }

  /** Typed canonical messages, except perhaps `m`, whose events carry the turn bound when they arrive
      and are not dropped early. */
  predicate CanonicalMix(drop: EarlyDrop, ms: seq<Msg>, m: Msg) {
    && AllTyped(ms) && (forall i :: 0 <= i < |ms| ==> ms[i] == m || Canonical(ms[i]))
    && SP.Attributed(Signals(ms), Views(drop, ms))
  }

  /** However `m` is mixed into such streams of one loop, the two machines end together. */
  ghost predicate NeverSeparates(drop: EarlyDrop, m: Msg) {
    forall loop, ms, only :: CanonicalMix(drop, ms, m) && OneLoopOf(loop, ms, only) ==> EndTogether(drop, loop, ms)
  }

  lemma NoEventsAttributed(drop: EarlyDrop, ms: seq<Msg>)
    requires AllTyped(ms) && forall i :: 0 <= i < |ms| ==> ms[i].StatusMsg?
    ensures SP.Attributed(Signals(ms), Views(drop, ms))
  {
    hide Read, ViewOf, FrameOf;
    forall i | 0 <= i < |ms|
      ensures !Views(drop, ms)[i].body.Event?
    {
      StatusFrame(drop, ms[i]);
    }
  }

  /** An odd running status, with or without a turn id, then a stopped one. */
  lemma OddRunningSeparates(drop: EarlyDrop, m: Msg)
    requires OddlySpelled(m, "running")
    ensures var ms := [m, StatusMsg("stopped", m.turnId, "")];
            CanonicalMix(drop, ms, m) && OneLoopOf("", ms, m.loopId) && !EndTogether(drop, "", ms)
  {
    hide Read, ViewOf, FrameOf, TurnOf, HasState, Signals, SessionAfter, SP.Attributed, Canonical;
    var ms := [m, StatusMsg("stopped", m.turnId, "")];
    OddSeen(drop, m, "running");
    PlainSeen(drop, ms[1], "stopped", TurnOf(m.turnId));
    NoEventsAttributed(drop, ms);
    FirstTwo(drop, ms);
    assert ms[..2] == ms;
  }

  /** A running status, then an odd stopped one of its turn, or without a turn id. */
  lemma OddStoppedSeparates(drop: EarlyDrop, m: Msg)
    requires OddlySpelled(m, "stopped")
    ensures var ms := [StatusMsg("running", m.turnId, ""), m];
            CanonicalMix(drop, ms, m) && OneLoopOf("", ms, m.loopId) && !EndTogether(drop, "", ms)
  {
    hide Read, ViewOf, FrameOf, TurnOf, HasState, Signals, SessionAfter, SP.Attributed, Canonical;
    var ms := [StatusMsg("running", m.turnId, ""), m];
    PlainSeen(drop, ms[0], "running", TurnOf(m.turnId));
    OddSeen(drop, m, "stopped");
    NoEventsAttributed(drop, ms);
    FirstTwo(drop, ms);
    assert ms[..2] == ms;
  }

  lemma ProgressAttributed(drop: EarlyDrop, ms: seq<Msg>, turn: Turn)
    requires AllTyped(ms) && |ms| == 3 && turn != NoTurn && StatusOf(ms[0], "running", turn) && ms[2].StatusMsg?
    requires ProgressOf(ms[1], turn) && !drop(ms[1].namespace, ms[1].mode, ms[1].data)
    ensures SP.Attributed(Signals(ms), Views(drop, ms))
  {
    hide Read, ViewOf, FrameOf, TurnOf, IsProgress, Bound, Canonical, CanonicalRunning, HasState, SessionAfter;
    PlainSeen(drop, ms[0], "running", turn);
    ProgressSeenByBoth(drop, ms[1], turn);
    StatusFrame(drop, ms[2]);
    NothingFed(drop);
    assert ms[..0] == [];
    BothStep(drop, "", ms, 0);
    assert Signals(ms[..1]) == Signals(ms)[..1];
    SP.BoundUntilEnd(Signals(ms)[..1]);
  }

  /** A running status, progress, then an odd idle one of their turn. */
  function IdleStream(m: Msg, e: Msg): seq<Msg>
    requires m.StatusMsg? && e.EventMsg?
  {
    [StatusMsg("running", m.turnId, ""), EventMsg(e.namespace, e.mode, e.data, m.turnId, ""), m]
  }

  lemma ProgressCopied(e: Msg, turnId: string)
    requires e.EventMsg? && IsProgress(e)
    ensures var copy := EventMsg(e.namespace, e.mode, e.data, turnId, ""); IsProgress(copy) && Canonical(copy)
  {
    hide IsTurnProgressChunk;
  }

  lemma OddIdleEnds(drop: EarlyDrop, ms: seq<Msg>, m: Msg)
    requires OddlySpelled(m, "idle") && TurnOf(m.turnId) != NoTurn && AllTyped(ms) && |ms| == 3 && ms[2] == m
    requires StatusOf(ms[0], "running", TurnOf(m.turnId)) && ProgressOf(ms[1], TurnOf(m.turnId))
    ensures !EndTogether(drop, "", ms)
  {
    hide Read, ViewOf, FrameOf, TurnOf, HasState, Signals, SessionAfter, IsProgress, EventTurn, Canonical,
      CanonicalRunning;
    PlainSeen(drop, ms[0], "running", TurnOf(m.turnId));
    ProgressSeenByBoth(drop, ms[1], TurnOf(m.turnId));
    OddSeen(drop, m, "idle");
    FirstThree(drop, ms);
  }

  lemma OddIdleSeparates(drop: EarlyDrop, m: Msg, e: Msg)
    requires OddlySpelled(m, "idle") && TurnOf(m.turnId) != NoTurn
    requires e.EventMsg? && IsProgress(e) && !drop(e.namespace, e.mode, e.data)
    ensures var ms := IdleStream(m, e);
            CanonicalMix(drop, ms, m) && OneLoopOf("", ms, m.loopId) && !EndTogether(drop, "", ms)
  {
    hide Read, ViewOf, FrameOf, TurnOf, HasState, SP.Attributed, IsProgress, EndTogether, CanonicalRunning, Canonical;
    var ms := IdleStream(m, e);
    ProgressCopied(e, m.turnId);
    PlainSeen(drop, ms[0], "running", TurnOf(m.turnId));
    ProgressAttributed(drop, ms, TurnOf(m.turnId));
    OddIdleEnds(drop, ms, m);
  }

  /** A message may be mixed in without ever separating the two machines exactly when it is harmless:
      canonical, or an odd idle status where the filter drops all progress anyway. */
  lemma NeverSeparatesExactly(drop: EarlyDrop, m: Msg)
    requires Typed(m)
    ensures NeverSeparates(drop, m) <==> Harmless(drop, m)
  {
    hide EndTogether, HasState, TurnOf, SP.Attributed, IsProgress;
    if Harmless(drop, m) {
      forall loop, ms, only | CanonicalMix(drop, ms, m) && OneLoopOf(loop, ms, only)
        ensures EndTogether(drop, loop, ms)
      {
        BoundaryAndSessionEndTogether(drop, loop, ms, only);
        EndTogetherMeans(drop, loop, ms);
      }
    } else if OddlySpelled(m, "running") {
      OddRunningSeparates(drop, m);
    } else if OddlySpelled(m, "stopped") {
      OddStoppedSeparates(drop, m);
    } else {
      var e: Msg :| e.EventMsg? && IsProgress(e) && !drop(e.namespace, e.mode, e.data);
      OddIdleSeparates(drop, m, e);
    }
  }

  lemma EndTogetherMeans(drop: EarlyDrop, loop: string, ms: seq<Msg>)
    requires AllTyped(ms)
    ensures var b, s := Run(false, Signals(ms)), SessionAfter(drop, loop, ms);
            EndTogether(drop, loop, ms) <==>
            (b.Ended() <==> s.outcome.Ended?) && (b.Ended() ==> s.outcome.kind == b.reason)
  {
  }
}
