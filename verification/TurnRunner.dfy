/** One query turn: arming, accumulation of the assistant text, and its single outcome
    (appkit/turn_runner.go, appkit/classifier.go). */
module TurnRunners {
  import opened Shared
  import opened Text
  import opened TurnId
  import opened Wire
  import opened TurnGate
  import opened TurnProtocol

  datatype Terminal = Continue | DeliverableComplete | FailedComplete

  /** The outcome of classifying one daemon event; `err` is "" for no error. */
  datatype ChatEventResult = ChatEventResult(
    content: string, thinkingStep: string, terminal: Terminal, completionEvent: string, err: string)

  type Classifier = (Msg, string) -> ChatEventResult

  datatype Policy = Fail | SoftComplete

  datatype Config = Config(
    deliverablePhases: set<string>, minDeliverableRunes: int,
    onIdleTimeout: Policy, onQueryTimeout: Policy, onStreamClose: Policy)

  // ---------------------------------------------------------------- the classifier's decisions

  /** The configured minimum, 8 when it is not positive. */
  function MinRunes(cfg: Config): (n: int)
    ensures n > 0
  {
    if cfg.minDeliverableRunes <= 0 then 8 else cfg.minDeliverableRunes
  }

  predicate IsSubstantiveAssistantReply(cfg: Config, content: string) {
    |TrimSpace(content)| >= MinRunes(cfg)
  }

  const MESSAGE_PREFIX := "soothe.protocol.message."
  const FINAL_REPORT := "soothe.output.autonomous.final_report.reported"

  predicate IsDeliverableCompletionEvent(cfg: Config, eventType: string) {
    && eventType != ""
    && (|| eventType in {TURN_END_IDLE, TURN_END_STOPPED, STREAM_END, "idle_timeout", "query_timeout", "stream_closed"}
        || eventType == FINAL_REPORT
        || (if MESSAGE_PREFIX <= eventType then eventType[|MESSAGE_PREFIX|..] in cfg.deliverablePhases
            else Contains(eventType, "soothe.output") && Contains(eventType, "responded")))
  }

  function ResolveDeliverableFinalContent(cfg: Config, r: ChatEventResult, accumulated: string): Option<string> {
    if r.terminal != DeliverableComplete || !IsDeliverableCompletionEvent(cfg, r.completionEvent) then None
    else if !Blank(r.content) then Some(TrimSpace(r.content))
    else if !Blank(accumulated) && IsSubstantiveAssistantReply(cfg, TrimSpace(accumulated)) then
      Some(TrimSpace(accumulated))
    else None
  }

  // ---------------------------------------------------------------- one turn

  datatype Role = Assistant | Error

  /** A message appended to the session store. */
  datatype Record = Record(role: Role, content: string, completionEvent: string)

  datatype Broadcast =
    | Delta(text: string) | ThinkingStep(text: string) | Complete(text: string) | QueryError(text: string)

  datatype Outcome = Going | Succeeded | Failed(err: string)

  /** What the loop meets: a message, the end of the stream, or one of its timers and cancels. */
  datatype Arrival = Message(msg: Msg) | StreamClosed | QueryTimedOut | Cancelled | IdleTimedOut

  /** How the turn starts: without an event stream, with a failed send, or sent. */
  datatype Launch = NoStream(err: string) | SendFailed(err: string) | Sent

  datatype QueryTurn = QueryTurn(
    armed: bool, content: string, boundary: Boundary, fed: seq<Signal>,
    records: seq<Record>, broadcasts: seq<Broadcast>, outcome: Outcome)

  function Finish(t: QueryTurn, record: Record, last: Broadcast, outcome: Outcome): QueryTurn {
    t.(records := t.records + [record], broadcasts := t.broadcasts + [last], outcome := outcome)
  }

  function FailWith(t: QueryTurn, err: string, returned: string): QueryTurn {
    Finish(t, Record(Error, err, ""), QueryError(err), Failed(returned))
  }

  function CompleteWith(t: QueryTurn, final: string, event: string): QueryTurn {
    Finish(t, Record(Assistant, final, event), Complete(final), Succeeded)
  }

  function FinishTimeout(t: QueryTurn, err: string, event: string, policy: Policy): QueryTurn {
    if policy == SoftComplete && !Blank(t.content) then CompleteWith(t, t.content, event)
    else FailWith(t, err, err)
  }

  predicate IsStatusRunningEvent(m: Msg) {
    m.StatusMsg? && HasState(m, "running")
  }

  predicate IsStaleTurnEndEvent(m: Msg) {
    (m.StatusMsg? && (HasState(m, "idle") || HasState(m, "stopped"))) || (m.EventMsg? && IsTurnEnd(m))
  }

  function Feed(t: QueryTurn, m: Msg): QueryTurn {
    t.(boundary := Fed(t.boundary, Read(m)), fed := t.fed + [Read(m)])
  }

  /** A snapshot that extends the text replaces it, anything else is appended. */
  function Extend(text: string, content: string): string {
    if text <= content then content else text + content
  }

  /** The part that is new. */
  function DeltaOf(text: string, content: string): string {
    if text <= content then content[|text|..] else content
  }

  function Accumulate(t: QueryTurn, content: string): QueryTurn {
    if content == "" then t
    else
      var delta := DeltaOf(t.content, content);
      t.(content := Extend(t.content, content),
         broadcasts := if delta == "" then t.broadcasts else t.broadcasts + [Delta(delta)])
  }

  function Think(t: QueryTurn, step: string): QueryTurn {
    if Blank(step) then t else t.(broadcasts := t.broadcasts + [ThinkingStep(TrimSpace(step) + "\n")])
  }

  function NoContentError(reason: string): string {
    "turn ended (" + reason + ") with no assistant content"
  }

  /** The outcome of a message once its text is accumulated: a deliverable phase completes the turn
      early, otherwise only the boundary ends it. */
  function Decide(cfg: Config, t: QueryTurn, r: ChatEventResult): QueryTurn {
    var final := ResolveDeliverableFinalContent(cfg, r, t.content);
    var reason := ReasonName(t.boundary.reason);
    if final.Some? && !IsDaemonTurnEndEvent(r.completionEvent) then CompleteWith(t, final.value, r.completionEvent)
    else if !t.boundary.Ended() then t
    else if IsSubstantiveAssistantReply(cfg, t.content) then CompleteWith(t, TrimSpace(t.content), reason)
    else FailWith(t, NoContentError(reason), NoContentError(reason))
  }

  /** The part of a step after the message was fed to the boundary. */
  function Conclude(cfg: Config, t: QueryTurn, r: ChatEventResult): QueryTurn {
    if r.err != "" && r.terminal == FailedComplete then FailWith(t, r.err, "process event: " + r.err)
    else Decide(cfg, Accumulate(Think(t, r.thinkingStep), r.content), r)
  }

  function OnMessage(cfg: Config, classify: Classifier, t: QueryTurn, m: Msg): QueryTurn {
    if !t.armed && IsStaleTurnEndEvent(m) then t
    else if !t.armed && IsStatusRunningEvent(m) then Feed(t, m)
    else Conclude(cfg, Feed(t.(armed := true), m), classify(m, t.content))
  }

  function Step(cfg: Config, classify: Classifier, t: QueryTurn, a: Arrival): QueryTurn {
    if t.outcome != Going then t
    else
      match a
      case Message(m) => OnMessage(cfg, classify, t, m)
      case StreamClosed =>
        if cfg.onStreamClose == SoftComplete && !Blank(t.content) then CompleteWith(t, t.content, "stream_closed")
        else FailWith(t, "event stream closed", "event stream closed")
      case QueryTimedOut => FinishTimeout(t, "appkit: query timeout", "query_timeout", cfg.onQueryTimeout)
      case IdleTimedOut => FinishTimeout(t, "appkit: idle timeout", "idle_timeout", cfg.onIdleTimeout)
      case Cancelled => FailWith(t, "context canceled", "context canceled")
  }

  const FRESH := QueryTurn(false, "", Fresh(false), [], [], [], Going)

  function Begin(launch: Launch): QueryTurn {
    match launch
    case NoStream(err) => FailWith(FRESH, err, err)
    case SendFailed(err) => FailWith(FRESH, err, "send message: " + err)
    case Sent => FRESH
  }

  function TurnAfter(cfg: Config, classify: Classifier, launch: Launch, arrivals: seq<Arrival>): QueryTurn {
    if arrivals == [] then Begin(launch)
    else Step(cfg, classify, TurnAfter(cfg, classify, launch, arrivals[..|arrivals| - 1]), arrivals[|arrivals| - 1])
  }

  // ---------------------------------------------------------------- what every turn keeps

  /** The text a stream of broadcasts has delivered so far. */
  function Streamed(bs: seq<Broadcast>): string {
    if bs == [] then ""
    else
      var last := bs[|bs| - 1];
      Streamed(bs[..|bs| - 1]) + (if last.Delta? then last.text else "")
  }

  predicate Closing(b: Broadcast) {
    b.Complete? || b.QueryError?
  }

  /** `final` is the text from some point on, as it is or trimmed. */
  predicate SuffixOf(final: string, text: string) {
    exists k :: 0 <= k <= |text| && (final == text[k..] || final == TrimSpace(text[k..]))
  }

  predicate Streaming(t: QueryTurn) {
    Streamed(t.broadcasts) == t.content
  }

  /** A turn that goes on has recorded nothing and closed nothing; a finished turn has exactly one
      record and one closing broadcast, the last, and succeeded exactly when it recorded a reply. */
  predicate OneOutcome(t: QueryTurn) {
    var n := |t.broadcasts|;
    if t.outcome == Going then
      t.records == [] && forall i :: 0 <= i < n ==> !Closing(t.broadcasts[i])
    else
      && |t.records| == 1 && n > 0
      && (forall i :: 0 <= i < n - 1 ==> !Closing(t.broadcasts[i]))
      && (t.outcome == Succeeded <==> t.records[0].role == Assistant)
      && t.broadcasts[n - 1] == (if t.outcome == Succeeded then Complete(t.records[0].content)
                                 else QueryError(t.records[0].content))
  }

  /** A recorded reply is real text, taken from the end of what was streamed. */
  predicate HonestReply(t: QueryTurn) {
    forall r :: r in t.records && r.role == Assistant ==> !Blank(r.content) && SuffixOf(r.content, t.content)
  }

  /** The boundary is fed in order, ends the turn when it ends, and is the only source of a
      recorded daemon turn end. */
  predicate BoundaryDriven(t: QueryTurn) {
    && t.boundary == TurnProtocol.Run(false, t.fed)
    && (t.outcome == Going ==> !t.boundary.Ended())
    && (t.boundary.Ended() ==> t.fed != [] && EndsAt(false, t.fed, |t.fed| - 1))
    && (forall r :: r in t.records && r.role == Assistant && IsDaemonTurnEndEvent(r.completionEvent) ==>
          t.boundary.Ended() && r.completionEvent == ReasonName(t.boundary.reason))
  }

  predicate Kept(t: QueryTurn) {
    Streaming(t) && OneOutcome(t) && HonestReply(t) && BoundaryDriven(t)
  }

  lemma StreamedOne(bs: seq<Broadcast>, b: Broadcast)
    ensures Streamed(bs + [b]) == Streamed(bs) + (if b.Delta? then b.text else "")
  {
    assert (bs + [b])[..|bs|] == bs;
  }

  lemma FinishKeeps(t: QueryTurn, record: Record, last: Broadcast, outcome: Outcome)
    requires Streaming(t) && OneOutcome(t) && BoundaryFed(t) && t.outcome == Going && outcome != Going
    requires outcome == Succeeded <==> record.role == Assistant
    requires last == if outcome == Succeeded then Complete(record.content) else QueryError(record.content)
    requires record.role == Assistant ==> !Blank(record.content) && SuffixOf(record.content, t.content)
    requires record.role == Assistant && IsDaemonTurnEndEvent(record.completionEvent) ==>
               t.boundary.Ended() && record.completionEvent == ReasonName(t.boundary.reason)
    ensures Kept(Finish(t, record, last, outcome))
  {
    hide IsDaemonTurnEndEvent, Blank, SuffixOf, EndsAt, ReasonName, Streamed;
    StreamedOne(t.broadcasts, last);
    assert t.records + [record] == [record];
  }

  /** The boundary part of a step in progress, before the outcome is decided. */
  predicate BoundaryFed(t: QueryTurn) {
    && t.boundary == TurnProtocol.Run(false, t.fed)
    && (t.boundary.Ended() ==> t.fed != [] && EndsAt(false, t.fed, |t.fed| - 1))
  }

  lemma FeedKeeps(t: QueryTurn, m: Msg)
    requires BoundaryFed(t) && !t.boundary.Ended()
    ensures BoundaryFed(Feed(t, m))
  {
    var fed := t.fed + [Read(m)];
    assert fed[..|fed| - 1] == t.fed && fed[..|fed|] == fed;
  }

  /** A running status alone never ends a turn. */
  lemma RunningDoesNotEnd(b: Boundary, m: Msg)
    requires !b.Ended() && IsStatusRunningEvent(m)
    ensures !Fed(b, Read(m)).Ended()
  {
    var state := TrimSpace(m.state);
    WordsDiffer(state);
    assert !EqualFold(state, "idle") && !EqualFold(state, "stopped");
  }

  lemma ThinkKeeps(t: QueryTurn, step: string)
    requires Streaming(t) && OneOutcome(t) && t.outcome == Going
    ensures var t' := Think(t, step);
            Streaming(t') && OneOutcome(t') && t' == t.(broadcasts := t'.broadcasts)
  {
    hide TrimSpace, Blank, Streamed;
    StreamedOne(t.broadcasts, ThinkingStep(TrimSpace(step) + "\n"));
  }

  /** What is broadcast is what is added, for snapshots and for increments alike. */
  lemma AccumulateKeeps(t: QueryTurn, content: string)
    requires Streaming(t) && OneOutcome(t) && t.outcome == Going
    ensures var t' := Accumulate(t, content);
            && Streaming(t') && OneOutcome(t') && t.content <= t'.content
            && t' == t.(content := t'.content, broadcasts := t'.broadcasts)
            && |content| <= |t'.content| && t'.content[|t'.content| - |content|..] == content
  {
    hide Extend, DeltaOf, Streamed;
    if content != "" {
      ExtendByDelta(t.content, content);
      StreamedOne(t.broadcasts, Delta(DeltaOf(t.content, content)));
    }
  }

  lemma ExtendByDelta(text: string, content: string)
    ensures var after := Extend(text, content);
            && after == text + DeltaOf(text, content)
            && |content| <= |after| && after[|after| - |content|..] == content
  {
  }

  lemma SuffixIs(text: string, k: nat)
    requires k <= |text|
    ensures SuffixOf(text[k..], text) && SuffixOf(TrimSpace(text[k..]), text)
  {
    hide TrimSpace;
  }

  lemma TrimKeepsText(s: string)
    requires !Blank(s)
    ensures !Blank(TrimSpace(s))
  {
    TrimTwice(s);
  }

  lemma SubstantiveIsText(cfg: Config, s: string)
    requires IsSubstantiveAssistantReply(cfg, s)
    ensures !Blank(s)
  {
  }

  lemma DecideKeeps(cfg: Config, t: QueryTurn, r: ChatEventResult)
    requires Streaming(t) && OneOutcome(t) && t.outcome == Going && BoundaryFed(t)
    requires |r.content| <= |t.content| && t.content[|t.content| - |r.content|..] == r.content
    ensures Kept(Decide(cfg, t, r)) && Decide(cfg, t, r).content == t.content
  {
    hide TrimSpace, Blank, SuffixOf, Streaming, BoundaryFed, IsDaemonTurnEndEvent,
      IsSubstantiveAssistantReply, IsDeliverableCompletionEvent, NoContentError;
    SuffixIs(t.content, |t.content| - |r.content|);
    SuffixIs(t.content, 0);
    assert t.content[0..] == t.content;
    var final := ResolveDeliverableFinalContent(cfg, r, t.content);
    var reason := ReasonName(t.boundary.reason);
    if final.Some? && !IsDaemonTurnEndEvent(r.completionEvent) {
      FinalIsText(cfg, r, t.content);
      FinishKeeps(t, Record(Assistant, final.value, r.completionEvent), Complete(final.value), Succeeded);
    } else if !t.boundary.Ended() {
      GoingKept(t);
    } else if IsSubstantiveAssistantReply(cfg, t.content) {
      SubstantiveIsText(cfg, t.content);
      TrimKeepsText(t.content);
      FinishKeeps(t, Record(Assistant, TrimSpace(t.content), reason), Complete(TrimSpace(t.content)), Succeeded);
    } else {
      var err := NoContentError(reason);
      FinishKeeps(t, Record(Error, err, ""), QueryError(err), Failed(err));
    }
  }

  lemma FinalIsText(cfg: Config, r: ChatEventResult, accumulated: string)
    requires ResolveDeliverableFinalContent(cfg, r, accumulated).Some?
    ensures !Blank(ResolveDeliverableFinalContent(cfg, r, accumulated).value)
  {
    TrimTwice(r.content);
    TrimTwice(accumulated);
  }

  lemma GoingKept(t: QueryTurn)
    requires Streaming(t) && OneOutcome(t) && t.outcome == Going && BoundaryFed(t) && !t.boundary.Ended()
    ensures Kept(t)
  {
  }

  lemma ConcludeKeeps(cfg: Config, t: QueryTurn, r: ChatEventResult)
    requires Streaming(t) && OneOutcome(t) && t.outcome == Going && BoundaryFed(t)
    ensures Kept(Conclude(cfg, t, r)) && t.content <= Conclude(cfg, t, r).content
  {
    hide Streaming, OneOutcome, BoundaryFed, Decide, Accumulate, Think, IsDaemonTurnEndEvent, Kept;
    if r.err != "" && r.terminal == FailedComplete {
      FinishKeeps(t, Record(Error, r.err, ""), QueryError(r.err), Failed("process event: " + r.err));
    } else {
      ThinkKeeps(t, r.thinkingStep);
      var t1 := Think(t, r.thinkingStep);
      AccumulateKeeps(t1, r.content);
      var t2 := Accumulate(t1, r.content);
      SameBoundary(t, t2);
      DecideKeeps(cfg, t2, r);
    }
  }

  lemma SameBoundary(t: QueryTurn, t': QueryTurn)
    requires BoundaryFed(t) && t'.boundary == t.boundary && t'.fed == t.fed
    ensures BoundaryFed(t')
  {
  }

  lemma MessageKeeps(cfg: Config, classify: Classifier, t: QueryTurn, m: Msg)
    requires Kept(t) && t.outcome == Going
    ensures Kept(OnMessage(cfg, classify, t, m)) && t.content <= OnMessage(cfg, classify, t, m).content
  {
    hide IsStaleTurnEndEvent, IsStatusRunningEvent, Conclude, Read, EndsAt, HonestReply, IsDaemonTurnEndEvent;
    if t.armed || !IsStaleTurnEndEvent(m) {
      FeedKeeps(t, m);
      if !t.armed && IsStatusRunningEvent(m) {
        RunningDoesNotEnd(t.boundary, m);
        GoingKept(Feed(t, m));
      } else {
        var t1 := t.(armed := true);
        FeedKeeps(t1, m);
        ConcludeKeeps(cfg, Feed(t1, m), classify(m, t.content));
      }
    }
  }

  lemma StepKeeps(cfg: Config, classify: Classifier, t: QueryTurn, a: Arrival)
    requires Kept(t)
    ensures var t' := Step(cfg, classify, t, a);
            && Kept(t') && t.content <= t'.content && (t.outcome != Going ==> t' == t)
  {
    hide TrimSpace, Blank, SuffixOf, Streaming, BoundaryFed, OnMessage, EndsAt, HonestReply, IsDaemonTurnEndEvent, Kept;
    if t.outcome == Going {
      SuffixIs(t.content, 0);
      assert t.content[0..] == t.content;
      KeptParts(t);
      NotDaemonEnds();
      match a
      case Message(m) => MessageKeeps(cfg, classify, t, m);
      case StreamClosed =>
        SoftOrFail(t, cfg.onStreamClose, "event stream closed", "stream_closed");
      case QueryTimedOut =>
        SoftOrFail(t, cfg.onQueryTimeout, "appkit: query timeout", "query_timeout");
      case IdleTimedOut =>
        SoftOrFail(t, cfg.onIdleTimeout, "appkit: idle timeout", "idle_timeout");
      case Cancelled =>
        var err := "context canceled";
        FinishKeeps(t, Record(Error, err, ""), QueryError(err), Failed(err));
    }
  }

  lemma KeptParts(t: QueryTurn)
    requires Kept(t)
    ensures Streaming(t) && OneOutcome(t) && BoundaryFed(t)
  {
  }

  lemma NotDaemonEnds()
    ensures forall e :: e in {"stream_closed", "query_timeout", "idle_timeout"} ==> !IsDaemonTurnEndEvent(e)
  {
    TrimOfTrimmed("stream_closed");
    TrimOfTrimmed("query_timeout");
    TrimOfTrimmed("idle_timeout");
    assert "stream_closed"[1] == 't' && "query_timeout"[0] == 'q' && "idle_timeout"[0] == 'i';
    assert TURN_END_STREAM_END[1] == 'o' && TURN_END_IDLE[0] == 's' && TURN_END_STOPPED[0] == 's';
    assert |TURN_END_IDLE| != |"stream_closed"| && TURN_END_STOPPED[2] == 'a' && "stream_closed"[2] == 'r';
  }

  lemma SoftOrFail(t: QueryTurn, policy: Policy, err: string, event: string)
    requires Streaming(t) && OneOutcome(t) && BoundaryFed(t) && t.outcome == Going
    requires !IsDaemonTurnEndEvent(event) && SuffixOf(t.content, t.content)
    ensures Kept(FinishTimeout(t, err, event, policy))
  {
    hide Blank, SuffixOf, Streaming, OneOutcome, BoundaryFed, IsDaemonTurnEndEvent, Kept;
    if policy == SoftComplete && !Blank(t.content) {
      FinishKeeps(t, Record(Assistant, t.content, event), Complete(t.content), Succeeded);
    } else {
      FinishKeeps(t, Record(Error, err, ""), QueryError(err), Failed(err));
    }
  }

  /** Every turn, whatever arrives and however messages are classified: what was streamed is the
      accumulated text, there is exactly one outcome, replies are honest and the boundary alone
      decides daemon turn ends. */
  lemma {:induction false} TurnKept(cfg: Config, classify: Classifier, launch: Launch, arrivals: seq<Arrival>)
    ensures Kept(TurnAfter(cfg, classify, launch, arrivals))
  {
    if arrivals == [] {
      GoingKept(FRESH);
      match launch
      case NoStream(err) => FinishKeeps(FRESH, Record(Error, err, ""), QueryError(err), Failed(err));
      case SendFailed(err) =>
        FinishKeeps(FRESH, Record(Error, err, ""), QueryError(err), Failed("send message: " + err));
      case Sent =>
    } else {
      var pre := arrivals[..|arrivals| - 1];
      TurnKept(cfg, classify, launch, pre);
      StepKeeps(cfg, classify, TurnAfter(cfg, classify, launch, pre), arrivals[|arrivals| - 1]);
    }
  }

  /** The text only grows, and a finished turn never changes again. */
  lemma {:induction false} TextOnlyGrows(
    cfg: Config, classify: Classifier, launch: Launch, arrivals: seq<Arrival>, j: nat)
    requires j <= |arrivals|
    ensures var early := TurnAfter(cfg, classify, launch, arrivals[..j]);
            var late := TurnAfter(cfg, classify, launch, arrivals);
            early.content <= late.content && (early.outcome != Going ==> late == early)
  {
    hide Step, Kept, Begin;
    if j == |arrivals| {
      assert arrivals[..j] == arrivals;
    } else {
      var n := |arrivals| - 1;
      assert arrivals[..n][..j] == arrivals[..j];
      TextOnlyGrows(cfg, classify, launch, arrivals[..n], j);
      TurnKept(cfg, classify, launch, arrivals[..n]);
      StepKeeps(cfg, classify, TurnAfter(cfg, classify, launch, arrivals[..n]), arrivals[n]);
    }
  }

  // ---------------------------------------------------------------- snapshots and increments

  /** The non-empty contents that the turn took in, in order: those of the messages that found it
      going and armed it or found it armed, and were not classified as a failure. */
  function Contents(cfg: Config, classify: Classifier, launch: Launch, arrivals: seq<Arrival>): seq<string> {
    if arrivals == [] then []
    else
      var pre, a := arrivals[..|arrivals| - 1], arrivals[|arrivals| - 1];
      Contents(cfg, classify, launch, pre) + Met(classify, TurnAfter(cfg, classify, launch, pre), a)
  }

  function Met(classify: Classifier, t: QueryTurn, a: Arrival): seq<string> {
    if t.outcome != Going || !a.Message? then []
    else if !t.armed && (IsStaleTurnEndEvent(a.msg) || IsStatusRunningEvent(a.msg)) then []
    else
      var r := classify(a.msg, t.content);
      if (r.err != "" && r.terminal == FailedComplete) || r.content == "" then [] else [r.content]
  }

  /** The text after one more content: a snapshot that extends it replaces it, an increment is added. */
  lemma TextStep(cfg: Config, classify: Classifier, t: QueryTurn, a: Arrival)
    ensures var text, met := Step(cfg, classify, t, a).content, Met(classify, t, a);
            if met == [] then text == t.content
            else |met| == 1 && met[0] != "" && text == if t.content <= met[0] then met[0] else t.content + met[0]
  {
    hide IsStaleTurnEndEvent, IsStatusRunningEvent, Read, TrimSpace, ResolveDeliverableFinalContent,
      IsSubstantiveAssistantReply, NoContentError, Fed, IsDaemonTurnEndEvent, ReasonName, Blank;
  }

  lemma StreamedText(cfg: Config, classify: Classifier, launch: Launch, arrivals: seq<Arrival>)
    ensures var t := TurnAfter(cfg, classify, launch, arrivals); Streamed(t.broadcasts) == t.content
    ensures Begin(launch).content == ""
  {
    hide OneOutcome, HonestReply, BoundaryDriven, Streamed, TurnAfter;
    TurnKept(cfg, classify, launch, arrivals);
  }

  /** The text with one more content. */
  function Absorb(text: string, content: string): string {
    if text <= content then content else text + content
  }

  /** The text that contents add up to. */
  function Absorbed(contents: seq<string>): string {
    if contents == [] then ""
    else
      Absorb(Absorbed(contents[..|contents| - 1]), contents[|contents| - 1])
  }

  lemma {:induction false} TextIsAbsorbed(cfg: Config, classify: Classifier, launch: Launch, arrivals: seq<Arrival>)
    ensures TurnAfter(cfg, classify, launch, arrivals).content == Absorbed(Contents(cfg, classify, launch, arrivals))
  {
    hide Step, Met, Begin;
    StreamedText(cfg, classify, launch, []);
    if arrivals != [] {
      var pre, a := arrivals[..|arrivals| - 1], arrivals[|arrivals| - 1];
      TextIsAbsorbed(cfg, classify, launch, pre);
      TextStep(cfg, classify, TurnAfter(cfg, classify, launch, pre), a);
      var cs, all := Contents(cfg, classify, launch, pre), Contents(cfg, classify, launch, arrivals);
      assert all != cs ==> all[..|all| - 1] == cs;
    }
  }

  /** Each content extends the one before. */
  predicate Cumulative(contents: seq<string>) {
    forall i :: 0 < i < |contents| ==> contents[i - 1] <= contents[i]
  }

  lemma {:induction false} CumulativeLast(contents: seq<string>)
    requires Cumulative(contents)
    ensures Absorbed(contents) == if contents == [] then "" else contents[|contents| - 1]
  {
    if contents != [] {
      CumulativeLast(contents[..|contents| - 1]);
    }
  }

  function Concat(contents: seq<string>): string {
    if contents == [] then "" else Concat(contents[..|contents| - 1]) + contents[|contents| - 1]
  }

  /** No content after the first extends all that came before it. */
  predicate Incremental(contents: seq<string>) {
    forall i :: 0 < i < |contents| ==> !(Concat(contents[..i]) <= contents[i])
  }

  lemma IncrementalPrefix(contents: seq<string>, n: nat)
    requires Incremental(contents) && n <= |contents|
    ensures Incremental(contents[..n])
  {
    hide Concat;
    forall i | 0 < i < n
      ensures !(Concat(contents[..n][..i]) <= contents[..n][i])
    {
      assert contents[..n][..i] == contents[..i];
    }
  }

  lemma {:induction false} IncrementalConcat(contents: seq<string>)
    requires Incremental(contents)
    ensures Absorbed(contents) == Concat(contents)
  {
    if contents != [] {
      var n := |contents| - 1;
      IncrementalPrefix(contents, n);
      IncrementalConcat(contents[..n]);
      assert n > 0 ==> !(Concat(contents[..n]) <= contents[n]);
    }
  }

  /** A cumulative sender: if each content extends the one before, the text and what was streamed are
      the last content. */
  lemma SnapshotsReplace(cfg: Config, classify: Classifier, launch: Launch, arrivals: seq<Arrival>)
    requires Cumulative(Contents(cfg, classify, launch, arrivals))
    ensures var t, cs := TurnAfter(cfg, classify, launch, arrivals), Contents(cfg, classify, launch, arrivals);
            t.content == (if cs == [] then "" else cs[|cs| - 1]) && Streamed(t.broadcasts) == t.content
  {
    hide TurnAfter, Contents, Streamed, Absorbed;
    StreamedText(cfg, classify, launch, arrivals);
    TextIsAbsorbed(cfg, classify, launch, arrivals);
    CumulativeLast(Contents(cfg, classify, launch, arrivals));
  }

  /** An incremental sender: the text and what was streamed are all contents, one after the other. */
  lemma IncrementsAppend(cfg: Config, classify: Classifier, launch: Launch, arrivals: seq<Arrival>)
    requires Incremental(Contents(cfg, classify, launch, arrivals))
    ensures var t, cs := TurnAfter(cfg, classify, launch, arrivals), Contents(cfg, classify, launch, arrivals);
            t.content == Concat(cs) && Streamed(t.broadcasts) == t.content
  {
    hide TurnAfter, Contents, Streamed, Absorbed, Concat;
    StreamedText(cfg, classify, launch, arrivals);
    TextIsAbsorbed(cfg, classify, launch, arrivals);
    IncrementalConcat(Contents(cfg, classify, launch, arrivals));
  }

  // ---------------------------------------------------------------- exactly what a turn records

  function MinimumLength(cfg: Config): int {
    if cfg.minDeliverableRunes > 0 then cfg.minDeliverableRunes else 8
  }

  /** The completion events of a reply that a phase delivers before the daemon ends the turn. */
  predicate DeliversEarly(cfg: Config, event: string) {
    && TrimSpace(event) !in {"soothe.stream.end", "status.idle", "status.stopped"}
    && (|| event in {"idle_timeout", "query_timeout", "stream_closed"}
        || event == "soothe.output.autonomous.final_report.reported"
        || (exists phase :: phase in cfg.deliverablePhases && event == "soothe.protocol.message." + phase)
        || (!("soothe.protocol.message." <= event) && Contains(event, "soothe.output") && Contains(event, "responded")))
  }

  lemma DeliversByName(cfg: Config, event: string)
    ensures IsDeliverableCompletionEvent(cfg, event) && !IsDaemonTurnEndEvent(event) <==> DeliversEarly(cfg, event)
  {
    DaemonEventByName(event);
    hide TrimSpace, IsDaemonTurnEndEvent;
    var prefix := "soothe.protocol.message.";
    assert prefix <= event ==> event == prefix + event[|prefix|..];
    assert forall phase :: event == prefix + phase ==> prefix <= event && event[|prefix|..] == phase;
    assert !Contains("", "soothe.output");
  }

  lemma DaemonEventByName(event: string)
    ensures IsDaemonTurnEndEvent(event) <==> TrimSpace(event) in {"soothe.stream.end", "status.idle", "status.stopped"}
    ensures event in {"soothe.stream.end", "status.idle", "status.stopped"} ==> IsDaemonTurnEndEvent(event)
  {
    TrimOfTrimmed("soothe.stream.end");
    TrimOfTrimmed("status.idle");
    TrimOfTrimmed("status.stopped");
  }

  /** The record that a message taken in makes, when the text with it is `text` and the boundary has
      the given reason to end the turn: an early reply, the reply or the failure of a turn that the
      daemon ended, or none yet. */
  function RecordOf(cfg: Config, r: ChatEventResult, text: string, reason: Reason): seq<Record> {
    var early := r.terminal == DeliverableComplete && DeliversEarly(cfg, r.completionEvent);
    var long := |TrimSpace(text)| >= MinimumLength(cfg);
    if early && TrimSpace(r.content) != "" then [Record(Assistant, TrimSpace(r.content), r.completionEvent)]
    else if early && long then [Record(Assistant, TrimSpace(text), r.completionEvent)]
    else if reason == NotYet then []
    else if long then [Record(Assistant, TrimSpace(text), EndName(reason))]
    else [Record(Error, "turn ended (" + EndName(reason) + ") with no assistant content", "")]
  }

  function EndName(reason: Reason): string {
    match reason
    case NotYet => ""
    case StreamEnd => "soothe.stream.end"
    case Idle => "status.idle"
    case Stopped => "status.stopped"
  }

  lemma EndByName(reason: Reason)
    ensures ReasonName(reason) == EndName(reason)
    ensures NoContentError(ReasonName(reason)) == "turn ended (" + EndName(reason) + ") with no assistant content"
  {
  }

  lemma ResolvedExactly(cfg: Config, r: ChatEventResult, text: string)
    ensures var final := ResolveDeliverableFinalContent(cfg, r, text);
            final.Some? && !IsDaemonTurnEndEvent(r.completionEvent) <==>
            && r.terminal == DeliverableComplete && DeliversEarly(cfg, r.completionEvent)
            && (TrimSpace(r.content) != "" || |TrimSpace(text)| >= MinimumLength(cfg))
    ensures var final := ResolveDeliverableFinalContent(cfg, r, text);
            final.Some? ==> final.value == if TrimSpace(r.content) != "" then TrimSpace(r.content) else TrimSpace(text)
    ensures IsSubstantiveAssistantReply(cfg, text) <==> |TrimSpace(text)| >= MinimumLength(cfg)
  {
    DeliversByName(cfg, r.completionEvent);
    TrimTwice(text);
    hide TrimSpace, DeliversEarly, IsDeliverableCompletionEvent, IsDaemonTurnEndEvent;
  }

  lemma DecideExactly(cfg: Config, t: QueryTurn, r: ChatEventResult)
    requires t.outcome == Going
    ensures Decide(cfg, t, r).records == t.records + RecordOf(cfg, r, t.content, t.boundary.reason)
    ensures Decide(cfg, t, r).outcome == ReturnedFor(RecordOf(cfg, r, t.content, t.boundary.reason), false)
  {
    hide TrimSpace, DeliversEarly, IsDaemonTurnEndEvent, ResolveDeliverableFinalContent, IsSubstantiveAssistantReply,
      ReasonName, NoContentError, EndName, MinimumLength;
    ResolvedExactly(cfg, r, t.content);
    EndByName(t.boundary.reason);
  }

  /** What the loop records in silence: a soft completion with text, or the failure. */
  function SilentRecord(text: string, policy: Policy, failure: string, event: string): Record {
    if policy == SoftComplete && TrimSpace(text) != "" then Record(Assistant, text, event)
    else Record(Error, failure, "")
  }

  /** The record that an arrival makes in a turn that goes on. */
  function RecordAt(cfg: Config, classify: Classifier, t: QueryTurn, a: Arrival): seq<Record> {
    match a
    case Cancelled => [Record(Error, "context canceled", "")]
    case QueryTimedOut => [SilentRecord(t.content, cfg.onQueryTimeout, "appkit: query timeout", "query_timeout")]
    case IdleTimedOut => [SilentRecord(t.content, cfg.onIdleTimeout, "appkit: idle timeout", "idle_timeout")]
    case StreamClosed => [SilentRecord(t.content, cfg.onStreamClose, "event stream closed", "stream_closed")]
    case Message(m) =>
      var r := classify(m, t.content);
      if !t.armed && (IsStaleTurnEndEvent(m) || IsStatusRunningEvent(m)) then []
      else if r.err != "" && r.terminal == FailedComplete then [Record(Error, r.err, "")]
      else RecordOf(cfg, r, Absorb(t.content, r.content), Fed(t.boundary, Read(m)).reason)
  }

  /** The arrival is a message that was classified as a failure. */
  predicate FailsAt(classify: Classifier, t: QueryTurn, a: Arrival) {
    && a.Message? && (t.armed || !(IsStaleTurnEndEvent(a.msg) || IsStatusRunningEvent(a.msg)))
    && classify(a.msg, t.content).err != "" && classify(a.msg, t.content).terminal == FailedComplete
  }

  /** What the turn returns: nothing for a reply, and the recorded failure otherwise. */
  function ReturnedFor(records: seq<Record>, classified: bool): Outcome {
    if records == [] then Going
    else if records[0].role == Assistant then Succeeded
    else Failed((if classified then "process event: " else "") + records[0].content)
  }

  lemma RecordStep(cfg: Config, classify: Classifier, t: QueryTurn, a: Arrival)
    requires t.outcome == Going
    ensures Step(cfg, classify, t, a).records == t.records + RecordAt(cfg, classify, t, a)
    ensures Step(cfg, classify, t, a).outcome == ReturnedFor(RecordAt(cfg, classify, t, a), FailsAt(classify, t, a))
  {
    hide Read, Fed, IsStaleTurnEndEvent, IsStatusRunningEvent, TrimSpace, Decide, RecordOf;
    if a.Message? {
      var r := classify(a.msg, t.content);
      var fed := Feed(t.(armed := true), a.msg);
      var t' := Accumulate(Think(fed, r.thinkingStep), r.content);
      assert t'.content == Absorb(t.content, r.content) && t'.records == t.records && t'.boundary == fed.boundary;
      DecideExactly(cfg, t', r);
    }
  }

  function RecordBy(cfg: Config, classify: Classifier, arrivals: seq<Arrival>, k: nat): seq<Record>
    requires k < |arrivals|
  {
    RecordAt(cfg, classify, TurnAfter(cfg, classify, Sent, arrivals[..k]), arrivals[k])
  }

  /** A finished turn was ended by the first arrival that makes a record, and holds that record. */
  lemma {:induction false} RecordedExactly(cfg: Config, classify: Classifier, arrivals: seq<Arrival>)
    ensures var t := TurnAfter(cfg, classify, Sent, arrivals);
            if t.outcome == Going then
              forall k :: 0 <= k < |arrivals| ==> RecordBy(cfg, classify, arrivals, k) == []
            else
              exists k :: && 0 <= k < |arrivals| && t.records == RecordBy(cfg, classify, arrivals, k)
                          && forall i :: 0 <= i < k ==> RecordBy(cfg, classify, arrivals, i) == []
  {
    hide Step, RecordAt, Kept;
    if arrivals != [] {
      var n := |arrivals| - 1;
      var pre := arrivals[..n];
      var t := TurnAfter(cfg, classify, Sent, pre);
      RecordedExactly(cfg, classify, pre);
      assert forall k :: 0 <= k <= n ==> pre[..k] == arrivals[..k];
      assert forall k :: 0 <= k < n ==> RecordBy(cfg, classify, pre, k) == RecordBy(cfg, classify, arrivals, k);
      GoingHasNoRecord(cfg, classify, pre);
      GoingHasNoRecord(cfg, classify, arrivals);
      TextOnlyGrows(cfg, classify, Sent, arrivals, n);
      if t.outcome == Going {
        RecordStep(cfg, classify, t, arrivals[n]);
        assert RecordBy(cfg, classify, arrivals, n) == TurnAfter(cfg, classify, Sent, arrivals).records;
      }
    }
  }

  lemma GoingHasNoRecord(cfg: Config, classify: Classifier, arrivals: seq<Arrival>)
    ensures var t := TurnAfter(cfg, classify, Sent, arrivals); t.outcome == Going <==> t.records == []
  {
    hide TurnAfter, Streaming, HonestReply, BoundaryDriven;
    TurnKept(cfg, classify, Sent, arrivals);
  }

  /** The broadcasts that close a turn with these records. */
  function Closings(records: seq<Record>): seq<Broadcast> {
    seq(|records|, i requires 0 <= i < |records| =>
      if records[i].role == Assistant then Complete(records[i].content) else QueryError(records[i].content))
  }

  /** What a step broadcasts: the thinking step, then what is new in the text, then the record that
      closes the turn. */
  lemma BroadcastStep(cfg: Config, classify: Classifier, t: QueryTurn, m: Msg)
    requires t.outcome == Going && t.records == []
    ensures var t', r := Step(cfg, classify, t, Message(m)), classify(m, t.content);
            var taken := t.armed || !(IsStaleTurnEndEvent(m) || IsStatusRunningEvent(m));
            var failed := r.err != "" && r.terminal == FailedComplete;
            var step := TrimSpace(r.thinkingStep);
            t'.broadcasts == t.broadcasts
              + (if taken && !failed && step != "" then [ThinkingStep(step + "\n")] else [])
              + (if |t.content| < |t'.content| then [Delta(t'.content[|t.content|..])] else [])
              + Closings(t'.records)
  {
    hide Read, Fed, IsStaleTurnEndEvent, IsStatusRunningEvent, TrimSpace, IsDaemonTurnEndEvent, NoContentError,
      Accumulate, Decide;
    var r := classify(m, t.content);
    var taken := t.armed || !(IsStaleTurnEndEvent(m) || IsStatusRunningEvent(m));
    if taken && !(r.err != "" && r.terminal == FailedComplete) {
      var fed := Feed(t.(armed := true), m);
      var thought := Think(fed, r.thinkingStep);
      var t1 := Accumulate(thought, r.content);
      AccumulateBroadcasts(thought, r.content);
      ClosingOnly(cfg, t1, r);
    }
  }

  lemma AccumulateBroadcasts(t: QueryTurn, content: string)
    ensures var t' := Accumulate(t, content);
            && t'.broadcasts
               == t.broadcasts + (if |t.content| < |t'.content| then [Delta(t'.content[|t.content|..])] else [])
            && t' == t.(content := t'.content, broadcasts := t'.broadcasts)
  {
  }

  lemma ClosingOnly(cfg: Config, t: QueryTurn, r: ChatEventResult)
    requires t.records == []
    ensures var t' := Decide(cfg, t, r);
            && t'.content == t.content && |t'.records| <= 1
            && t'.broadcasts == t.broadcasts + Closings(t'.records)
  {
    hide TrimSpace, IsDaemonTurnEndEvent, NoContentError, ResolveDeliverableFinalContent, IsSubstantiveAssistantReply,
      ReasonName;
  }

  /** A turn that could not be launched records why; a send failure is returned as such. */
  lemma LaunchExactly(err: string)
    ensures Begin(NoStream(err)).records == [Record(Error, err, "")] == Begin(SendFailed(err)).records
    ensures Begin(NoStream(err)).broadcasts == [QueryError(err)] == Begin(SendFailed(err)).broadcasts
    ensures Begin(NoStream(err)).outcome == Failed(err)
    ensures Begin(SendFailed(err)).outcome == Failed("send message: " + err)
    ensures Begin(Sent) == QueryTurn(false, "", Fresh(false), [], [], [], Going)
  {
  }

  /** What the boundary is fed: every message that finds the turn going, except end markers before the
      turn is armed. */
  function FedFrom(cfg: Config, classify: Classifier, launch: Launch, arrivals: seq<Arrival>): seq<Signal> {
    if arrivals == [] then []
    else
      var pre, a := arrivals[..|arrivals| - 1], arrivals[|arrivals| - 1];
      var t := TurnAfter(cfg, classify, launch, pre);
      FedFrom(cfg, classify, launch, pre) + if Feeds(t, a) then [Read(a.msg)] else []
  }

  predicate Feeds(t: QueryTurn, a: Arrival) {
    t.outcome == Going && a.Message? && (t.armed || !IsStaleTurnEndEvent(a.msg))
  }

  /** The turn is armed by a message that is neither a typed running status nor a typed end marker. */
  predicate Arms(t: QueryTurn, a: Arrival) {
    t.outcome == Going && a.Message? && !IsStaleTurnEndEvent(a.msg) && !IsStatusRunningEvent(a.msg)
  }

  lemma FedStepExactly(cfg: Config, classify: Classifier, t: QueryTurn, a: Arrival)
    ensures var t' := Step(cfg, classify, t, a);
            && t'.fed == t.fed + (if Feeds(t, a) then [Read(a.msg)] else [])
            && (t'.armed <==> t.armed || Arms(t, a))
  {
    hide Read, TrimSpace, ResolveDeliverableFinalContent, IsStaleTurnEndEvent, IsStatusRunningEvent, Extend, DeltaOf,
      IsSubstantiveAssistantReply, NoContentError, Fed, IsDaemonTurnEndEvent, ReasonName;
  }

  lemma {:induction false} FedExactly(cfg: Config, classify: Classifier, launch: Launch, arrivals: seq<Arrival>)
    ensures TurnAfter(cfg, classify, launch, arrivals).fed == FedFrom(cfg, classify, launch, arrivals)
  {
    hide Step, Arms, Read, IsStaleTurnEndEvent, Begin;
    if arrivals == [] {
      NotArmedYet(launch);
    } else {
      var pre := arrivals[..|arrivals| - 1];
      FedExactly(cfg, classify, launch, pre);
      FedStepExactly(cfg, classify, TurnAfter(cfg, classify, launch, pre), arrivals[|arrivals| - 1]);
    }
  }

  /** A turn is armed exactly when such a message has arrived. */
  lemma {:induction false} ArmedExactly(cfg: Config, classify: Classifier, launch: Launch, arrivals: seq<Arrival>)
    ensures TurnAfter(cfg, classify, launch, arrivals).armed <==>
            exists k :: 0 <= k < |arrivals| && ArmsAt(cfg, classify, launch, arrivals, k)
  {
    hide Step, Arms, Read, IsStaleTurnEndEvent, Begin;
    if arrivals == [] {
      NotArmedYet(launch);
    } else {
      var n := |arrivals| - 1;
      var pre := arrivals[..n];
      ArmedExactly(cfg, classify, launch, pre);
      FedStepExactly(cfg, classify, TurnAfter(cfg, classify, launch, pre), arrivals[n]);
      assert forall k :: 0 <= k <= n ==> pre[..k] == arrivals[..k];
      assert forall k :: 0 <= k < n ==>
        (ArmsAt(cfg, classify, launch, pre, k) <==> ArmsAt(cfg, classify, launch, arrivals, k));
      assert Arms(TurnAfter(cfg, classify, launch, pre), arrivals[n]) <==> ArmsAt(cfg, classify, launch, arrivals, n);
    }
  }

  predicate ArmsAt(cfg: Config, classify: Classifier, launch: Launch, arrivals: seq<Arrival>, k: nat)
    requires k < |arrivals|
  {
    Arms(TurnAfter(cfg, classify, launch, arrivals[..k]), arrivals[k])
  }

  lemma NotArmedYet(launch: Launch)
    ensures !Begin(launch).armed && Begin(launch).fed == []
  {
  }

  // ---------------------------------------------------------------- leftovers of an earlier turn

  /** A message that says running, or that can end a turn. */
  predicate Marker(m: Msg) {
    var s := Read(m);
    s.running || s.stopped || s.idle || s.turnEnd
  }

  predicate AllMarkers(arrivals: seq<Arrival>) {
    forall i :: 0 <= i < |arrivals| ==> arrivals[i].Message? && Marker(arrivals[i].msg)
  }

  predicate AllTypedMessages(arrivals: seq<Arrival>) {
    forall i :: 0 <= i < |arrivals| ==> arrivals[i].Message? && Typed(arrivals[i].msg)
  }

  lemma MarkersAreRecognised(m: Msg)
    requires Marker(m)
    ensures Typed(m) <==> IsStaleTurnEndEvent(m) || IsStatusRunningEvent(m)
  {
    hide TrimSpace, EqualFold, IsTurnEndCustomData, IsTurnProgressChunk, TurnOf, FrameTurnID;
  }

  predicate Untouched(t: QueryTurn) {
    t.outcome == Going && !t.armed && t.records == [] && t.broadcasts == [] && t.content == ""
  }

  /** One more marker: a typed one leaves the turn untouched, an untyped one arms it. */
  lemma MarkerStep(cfg: Config, classify: Classifier, t: QueryTurn, m: Msg)
    requires Marker(m) && Untouched(t)
    ensures if Typed(m) then Untouched(Step(cfg, classify, t, Message(m))) else Step(cfg, classify, t, Message(m)).armed
  {
    hide Marker, IsStaleTurnEndEvent, IsStatusRunningEvent, Read, Conclude, Fed;
    MarkersAreRecognised(m);
    if !Typed(m) {
      ArmedStepFeeds(cfg, classify, t, m);
    }
  }

  lemma StaysArmed(cfg: Config, classify: Classifier, t: QueryTurn, a: Arrival)
    requires t.armed
    ensures Step(cfg, classify, t, a).armed
  {
    hide IsStaleTurnEndEvent, IsStatusRunningEvent, Read, TrimSpace, ResolveDeliverableFinalContent, Extend, DeltaOf,
      IsSubstantiveAssistantReply, NoContentError, Fed, IsDaemonTurnEndEvent, ReasonName;
  }

  /** Buffered running statuses and end markers of an earlier turn, in any number and order, leave
      the new turn untouched exactly when all of them are typed; the first untyped one arms it. */
  lemma {:induction false} LeftoversCannotFinish(cfg: Config, classify: Classifier, arrivals: seq<Arrival>)
    requires AllMarkers(arrivals)
    ensures var t := TurnAfter(cfg, classify, Sent, arrivals);
            if AllTypedMessages(arrivals) then Untouched(t) else t.armed
  {
    hide Step, Marker;
    if arrivals != [] {
      var n := |arrivals| - 1;
      LeftoversCannotFinish(cfg, classify, arrivals[..n]);
      var t := TurnAfter(cfg, classify, Sent, arrivals[..n]);
      assert AllTypedMessages(arrivals) <==> AllTypedMessages(arrivals[..n]) && Typed(arrivals[n].msg);
      if t.armed {
        StaysArmed(cfg, classify, t, arrivals[n]);
      } else {
        MarkerStep(cfg, classify, t, arrivals[n].msg);
      }
    }
  }

  /** Markers that surround a marker `m` and finish a turn if it is untyped. */
  function Around(m: Msg): seq<Arrival> {
    [Message(StatusMsg("running", "", "")), Message(m), Message(StatusMsg("stopped", StatusTurn(m), ""))]
  }

  lemma UntypedArms(m: Msg)
    requires m.MapMsg?
    ensures !IsStaleTurnEndEvent(m) && !IsStatusRunningEvent(m)
  {
  }

  lemma PlainRunning()
    ensures var m := StatusMsg("running", "", "");
            && Read(m) == Signal(true, false, false, NoTurn, false, false, NoTurn)
            && IsStatusRunningEvent(m) && !IsStaleTurnEndEvent(m) && Marker(m)
  {
    ReadRunning("", "");
    TurnOfTrim("");
    OneRole(StatusMsg("running", "", ""));
    hide TrimSpace, EqualFold, TurnOf;
  }

  lemma PlainStopped(m: Msg)
    ensures var s := Read(StatusMsg("stopped", StatusTurn(m), ""));
            s.stopped && !s.running && s.statusTurn == Read(m).statusTurn
    ensures Marker(StatusMsg("stopped", StatusTurn(m), ""))
  {
    TrimOfTrimmed("stopped");
    assert EqualFold("stopped", "stopped");
    TurnOfTrim(StatusTurn(m));
    OneRole(StatusMsg("stopped", StatusTurn(m), ""));
    hide TrimSpace, EqualFold, TurnOf, StatusTurn, IsProgress, IsTurnEnd, EventTurn;
  }

  lemma MarkerThenStopped(running: Signal, m: Signal, stopped: Signal)
    requires running == Signal(true, false, false, NoTurn, false, false, NoTurn)
    requires stopped.stopped && !stopped.running && stopped.statusTurn == m.statusTurn
    ensures !Fed(Fresh(false), running).Ended()
    ensures Fed(Fed(Fed(Fresh(false), running), m), stopped).Ended()
  {
  }

  /** Any untyped marker lets markers finish a turn, whatever the classifier says. */
  lemma UntypedLeftoversFinish(cfg: Config, classify: Classifier, m: Msg)
    requires m.MapMsg?
    ensures TurnAfter(cfg, classify, Sent, Around(m)).outcome != Going
  {
    hide Step, Read, IsStaleTurnEndEvent, IsStatusRunningEvent, Marker, StatusTurn, Fed;
    var all := Around(m);
    assert all[..3] == all && all[..0] == [];
    assert all[..1][..0] == [] && all[..2][..1] == all[..1] && all[..3][..2] == all[..2];
    PlainRunning();
    PlainStopped(m);
    UntypedArms(m);
    var t1, t2 := TurnAfter(cfg, classify, Sent, all[..1]), TurnAfter(cfg, classify, Sent, all[..2]);
    assert t1 == Step(cfg, classify, TurnAfter(cfg, classify, Sent, all[..1][..0]), all[0]);
    RunningOnlyFed(cfg, classify, FRESH, all[0].msg);
    ArmedStepFeeds(cfg, classify, t1, m);
    if t2.outcome == Going {
      ArmedStepFeeds(cfg, classify, t2, all[2].msg);
      MarkerThenStopped(Read(all[0].msg), Read(m), Read(all[2].msg));
      TurnKept(cfg, classify, Sent, all);
    } else {
      StaysFinished(cfg, classify, Sent, all, 2);
    }
  }

  /** A running status that finds the turn unarmed is only fed to the boundary. */
  lemma RunningOnlyFed(cfg: Config, classify: Classifier, t: QueryTurn, m: Msg)
    requires t.outcome == Going && !t.armed && IsStatusRunningEvent(m) && !IsStaleTurnEndEvent(m)
    ensures Step(cfg, classify, t, Message(m)) == Feed(t, m)
  {
    hide IsStaleTurnEndEvent, IsStatusRunningEvent, Read, Conclude;
  }

  /** Markers that are all typed, except perhaps `m`. */
  predicate MarkerMix(arrivals: seq<Arrival>, m: Msg) {
    AllMarkers(arrivals) && forall i :: 0 <= i < |arrivals| ==> arrivals[i].msg == m || Typed(arrivals[i].msg)
  }

  /** However `m` is mixed into leftovers of typed markers, they do not finish the turn. */
  ghost predicate NeverFinishes(cfg: Config, classify: Classifier, m: Msg) {
    forall arrivals :: MarkerMix(arrivals, m) ==> TurnAfter(cfg, classify, Sent, arrivals).outcome == Going
  }

  /** For every classifier, a marker may be left over without finishing a turn exactly when it is
      typed. A frame of an unknown type that carries a turn-end event is a marker that the decoder
      leaves untyped. */
  lemma LeftoversExactly(cfg: Config, classify: Classifier, m: Msg)
    requires Marker(m)
    ensures NeverFinishes(cfg, classify, m) <==> Typed(m)
  {
    hide TurnAfter, Marker, StatusTurn, Around;
    if Typed(m) {
      forall arrivals | MarkerMix(arrivals, m)
        ensures TurnAfter(cfg, classify, Sent, arrivals).outcome == Going
      {
        LeftoversCannotFinish(cfg, classify, arrivals);
      }
    } else {
      MarkerIsMap(m);
      AroundMixes(m);
      UntypedLeftoversFinish(cfg, classify, m);
    }
  }

  lemma AroundMixes(m: Msg)
    requires Marker(m)
    ensures MarkerMix(Around(m), m)
  {
    hide Marker, StatusTurn, Read, IsStatusRunningEvent, IsStaleTurnEndEvent;
    PlainRunning();
    PlainStopped(m);
  }

  lemma MarkerIsMap(m: Msg)
    requires Marker(m) && !Typed(m)
    ensures m.MapMsg?
  {
  }

  /** The decoder does leave such markers untyped. */
  lemma DecodedMarker(wireType: string)
    requires wireType !in DECODED_TYPES
    ensures var m := MapMsg(Obj(map["type" := Str(wireType), "mode" := Str("custom"),
                                    "data" := Obj(map["type" := Str(STREAM_END)])]));
            Decoded(m) && Marker(m) && !Typed(m)
  {
    TrimOfTrimmed(STREAM_END);
    TrimOfTrimmed("");
    var data := Obj(map["type" := Str(STREAM_END)]);
    assert StrField(data, "type") == STREAM_END && StrField(data, "scope") == "";
    hide TrimSpace;
    var frame := Obj(map["type" := Str(wireType), "mode" := Str("custom"), "data" := data]);
    assert StrField(frame, "mode") == "custom" && Get(frame, "data") == data && IsTurnEnd(MapMsg(frame));
  }

  /** A message that finds or makes the turn armed is fed to the boundary. */
  lemma ArmedStepFeeds(cfg: Config, classify: Classifier, t: QueryTurn, m: Msg)
    requires t.outcome == Going && (t.armed || (!IsStaleTurnEndEvent(m) && !IsStatusRunningEvent(m)))
    ensures var t' := Step(cfg, classify, t, Message(m));
            t'.armed && t'.boundary == Fed(t.boundary, Read(m))
  {
    hide IsStaleTurnEndEvent, IsStatusRunningEvent, Read, TrimSpace, ResolveDeliverableFinalContent, Extend, DeltaOf,
      IsSubstantiveAssistantReply, NoContentError, Fed, IsDaemonTurnEndEvent, ReasonName;
  }

  /** A reply recorded as ended by the daemon's stream-end or idle comes after a running status and
      after progress of the turn it ends. */
  lemma DaemonEndIsEarned(cfg: Config, classify: Classifier, launch: Launch, arrivals: seq<Arrival>)
    ensures var t := TurnAfter(cfg, classify, launch, arrivals);
            forall r :: r in t.records && r.role == Assistant
                        && r.completionEvent in {TURN_END_STREAM_END, TURN_END_IDLE} ==>
              var k := |t.fed| - 1;
              && t.fed != []
              && (exists i :: 0 <= i <= k && t.fed[i].running)
              && (exists j :: 0 <= j <= k && LiveProgress(t.fed, j))
              && Bound(t.fed) != NoTurn
              && Bound(t.fed)
                 == (if r.completionEvent == TURN_END_IDLE then t.fed[k].statusTurn else t.fed[k].eventTurn)
  {
    hide Streaming, OneOutcome, HonestReply, TurnAfter, IsDaemonTurnEndEvent, EndsAt, Run, ReasonName, LiveProgress,
      Bound;
    TurnKept(cfg, classify, launch, arrivals);
    var t := TurnAfter(cfg, classify, launch, arrivals);
    if exists r :: r in t.records && r.role == Assistant && r.completionEvent in {TURN_END_STREAM_END, TURN_END_IDLE} {
      DaemonEndNames(t.boundary.reason);
      BoundaryEndIsEarned(t.fed);
    }
  }

  lemma DaemonEndNames(reason: Reason)
    ensures IsDaemonTurnEndEvent(TURN_END_STREAM_END) && IsDaemonTurnEndEvent(TURN_END_IDLE)
    ensures ReasonName(reason) == TURN_END_STREAM_END <==> reason == StreamEnd
    ensures ReasonName(reason) == TURN_END_IDLE <==> reason == Idle
    ensures TURN_END_STREAM_END != TURN_END_IDLE
  {
    TrimOfTrimmed(TURN_END_STREAM_END);
    TrimOfTrimmed(TURN_END_IDLE);
    assert |TURN_END_STREAM_END| != |TURN_END_IDLE| && |TURN_END_STOPPED| != |TURN_END_IDLE|;
    assert |TURN_END_STOPPED| != |TURN_END_STREAM_END|;
  }

  lemma BoundaryEndIsEarned(fed: seq<Signal>)
    requires fed != [] && EndsAt(false, fed, |fed| - 1)
    ensures var k, reason := |fed| - 1, Run(false, fed).reason;
            && (exists i :: 0 <= i <= k && fed[i].running)
            && (reason != Stopped ==> Bound(fed) != NoTurn && exists j :: 0 <= j <= k && LiveProgress(fed, j))
            && (reason == StreamEnd ==> Bound(fed) == fed[k].eventTurn)
            && (reason == Idle ==> Bound(fed) == fed[k].statusTurn)
  {
    hide LiveProgress, Bound;
    var k := |fed| - 1;
    assert fed[..k + 1] == fed;
    TurnEndSafety(fed, k);
  }

  /** What the boundary was fed are arrived messages. */
  lemma {:induction false} FedArrived(cfg: Config, classify: Classifier, launch: Launch, arrivals: seq<Arrival>)
    ensures forall s :: s in TurnAfter(cfg, classify, launch, arrivals).fed ==>
              exists j :: 0 <= j < |arrivals| && arrivals[j].Message? && s == Read(arrivals[j].msg)
  {
    if arrivals != [] {
      var n := |arrivals| - 1;
      FedArrived(cfg, classify, launch, arrivals[..n]);
      var t, t' := TurnAfter(cfg, classify, launch, arrivals[..n]), TurnAfter(cfg, classify, launch, arrivals);
      FedStep(cfg, classify, t, arrivals[n]);
      forall s | s in t'.fed
        ensures exists j :: 0 <= j < |arrivals| && arrivals[j].Message? && s == Read(arrivals[j].msg)
      {
        if s in t.fed {
          var j :| 0 <= j < n && arrivals[..n][j].Message? && s == Read(arrivals[..n][j].msg);
          assert arrivals[j].Message?;
        }
      }
    }
  }

  lemma FedStep(cfg: Config, classify: Classifier, t: QueryTurn, a: Arrival)
    ensures var t' := Step(cfg, classify, t, a);
            t'.fed == t.fed || (a.Message? && t'.fed == t.fed + [Read(a.msg)])
  {
    hide Read, TrimSpace, ResolveDeliverableFinalContent, IsStaleTurnEndEvent, IsStatusRunningEvent, Extend, DeltaOf,
      IsSubstantiveAssistantReply, NoContentError, Fed, IsDaemonTurnEndEvent, ReasonName;
  }

  // ---------------------------------------------------------------- the object

  class TurnRunner {
    const cfg: Config
    const classify: Classifier

    // what the current turn appended to the session store and sent to subscribers
    var records: seq<Record>
    var broadcasts: seq<Broadcast>

    // the variables of the turn loop
    var assistantContent: string
    var armed: bool
    var boundary: TurnBoundary
    var outcome: Outcome
    ghost var fed: seq<Signal>

    ghost predicate Valid()
      reads this, boundary, boundary.Gate
    {
      boundary.Valid()
    }

    ghost function View(): QueryTurn
      reads this, boundary, boundary.Gate
    {
      QueryTurn(armed, assistantContent, boundary.View(), fed, records, broadcasts, outcome)
    }

    constructor (cfg: Config, classify: Classifier)
      ensures Valid() && View() == FRESH && this.cfg == cfg && this.classify == classify
    {
      this.cfg, this.classify := cfg, classify;
      records, broadcasts, assistantContent, armed, outcome, fed := [], [], "", false, Going, [];
      boundary := new TurnBoundary();
    }

    /** Running a turn over what arrives is a run of the turn protocol. */
    method RunTurn(launch: Launch, arrivals: seq<Arrival>)
      modifies this
      ensures Valid() && View() == TurnAfter(cfg, classify, launch, arrivals)
    {
      hide Step, FRESH, TurnBoundary.Valid;
      Start();
      match launch {
        case NoStream(failure) => PersistFailed(failure, failure);
        case SendFailed(failure) => PersistFailed(failure, "send message: " + failure);
        case Sent =>
      }
      var i := 0;
      while i < |arrivals| && outcome == Going
        invariant 0 <= i <= |arrivals|
        invariant fresh(boundary) && fresh(boundary.Gate) && Valid()
        invariant View() == TurnAfter(cfg, classify, launch, arrivals[..i])
      {
        assert arrivals[..i + 1][..i] == arrivals[..i];
        Iterate(arrivals[i]);
        i := i + 1;
      }
      if i < |arrivals| {
        StaysFinished(cfg, classify, launch, arrivals, i);
      } else {
        assert arrivals[..i] == arrivals;
      }
    }

    method Start()
      modifies this
      ensures fresh(boundary) && fresh(boundary.Gate) && Valid() && View() == FRESH
    {
      records, broadcasts, assistantContent, armed, outcome, fed := [], [], "", false, Going, [];
      boundary := new TurnBoundary();
    }

    method Iterate(arrival: Arrival)
      requires Valid() && outcome == Going
      modifies this, boundary, boundary.Gate
      ensures Valid() && boundary == old(boundary) && View() == Step(cfg, classify, old(View()), arrival)
    {
      hide Blank, TrimSpace, OnMessage, TurnBoundary.Valid, TurnBoundary.View;
      match arrival
      case Cancelled =>
        PersistFailed("context canceled", "context canceled");
      case QueryTimedOut =>
        EndInSilence("appkit: query timeout", "query_timeout", cfg.onQueryTimeout);
      case IdleTimedOut =>
        EndInSilence("appkit: idle timeout", "idle_timeout", cfg.onIdleTimeout);
      case StreamClosed =>
        EndInSilence("event stream closed", "stream_closed", cfg.onStreamClose);
      case Message(msg) =>
        Receive(msg);
    }

    method Receive(msg: Msg)
      requires Valid() && outcome == Going
      modifies this, boundary, boundary.Gate
      ensures Valid() && boundary == old(boundary) && View() == OnMessage(cfg, classify, old(View()), msg)
    {
      hide Read, IsStaleTurnEndEvent, IsStatusRunningEvent, Conclude, Fed, TurnBoundary.Valid, TurnBoundary.View,
        ReasonName;
      if !armed {
        if IsStaleTurnEndEvent(msg) {
          return;
        }
        if IsStatusRunningEvent(msg) {
          var _, _ := boundary.Feed(msg);
          fed := fed + [Read(msg)];
          return;
        }
        armed := true;
      }
      var ended, endReason := boundary.Feed(msg);
      fed := fed + [Read(msg)];
      if ended && !armed {
        assert false;  // a turn that reaches this point is armed
      }
      Settle(classify(msg, assistantContent), ended, endReason);
    }

    /** Classification, accumulation and the outcome of a message already fed to the boundary. */
    method Settle(r: ChatEventResult, ended: bool, endReason: string)
      requires Valid() && outcome == Going
      requires ended == boundary.View().Ended() && endReason == ReasonName(boundary.View().reason)
      modifies this
      ensures Valid() && boundary == old(boundary) && View() == Conclude(cfg, old(View()), r)
    {
      hide TurnBoundary.Valid, TurnBoundary.View, TrimSpace, Blank, Decide;
      if r.err != "" && r.terminal == FailedComplete {
        PersistFailed(r.err, "process event: " + r.err);
        return;
      }
      Stream(r.thinkingStep, r.content);
      Settled(r, ended, endReason);
    }

    method Stream(thinkingStep: string, content: string)
      requires Valid()
      modifies this
      ensures Valid() && boundary == old(boundary)
      ensures View() == Accumulate(Think(old(View()), thinkingStep), content)
    {
      hide TurnBoundary.Valid, TurnBoundary.View, TrimSpace;
      var step := TrimSpace(thinkingStep);
      if step != "" {
        broadcasts := broadcasts + [ThinkingStep(step + "\n")];
      }
      if content != "" {
        var delta := content;
        if assistantContent <= content {
          delta := content[|assistantContent|..];
          assistantContent := content;
        } else {
          assistantContent := assistantContent + content;
        }
        if delta != "" {
          broadcasts := broadcasts + [Delta(delta)];
        }
      }
    }

    method Settled(r: ChatEventResult, ended: bool, endReason: string)
      requires Valid() && outcome == Going
      requires ended == boundary.View().Ended() && endReason == ReasonName(boundary.View().reason)
      modifies this
      ensures Valid() && boundary == old(boundary) && View() == Decide(cfg, old(View()), r)
    {
      hide TurnBoundary.Valid, TurnBoundary.View, TrimSpace, IsDaemonTurnEndEvent, ReasonName,
        ResolveDeliverableFinalContent, IsSubstantiveAssistantReply, NoContentError;
      var final := ResolveDeliverableFinalContent(cfg, r, assistantContent);
      if final.Some? && !IsDaemonTurnEndEvent(r.completionEvent) {
        CompleteTurn(final.value, r.completionEvent);
        return;
      }
      if ended {
        if IsSubstantiveAssistantReply(cfg, assistantContent) {
          CompleteTurn(TrimSpace(assistantContent), endReason);
          return;
        }
        var failure := NoContentError(endReason);
        PersistFailed(failure, failure);
      }
    }

    method PersistFailed(failure: string, returned: string)
      requires Valid()
      modifies this
      ensures Valid() && boundary == old(boundary) && View() == FailWith(old(View()), failure, returned)
    {
      records := records + [Record(Error, failure, "")];
      broadcasts := broadcasts + [QueryError(failure)];
      outcome := Failed(returned);
    }

    method CompleteTurn(final: string, completionEvent: string)
      requires Valid()
      modifies this
      ensures Valid() && boundary == old(boundary) && View() == CompleteWith(old(View()), final, completionEvent)
    {
      records := records + [Record(Assistant, final, completionEvent)];
      broadcasts := broadcasts + [Complete(final)];
      outcome := Succeeded;
    }

    /** A soft completion when the policy asks for it and there is text, a failure otherwise. */
    method EndInSilence(failure: string, completionEvent: string, policy: Policy)
      requires Valid()
      modifies this
      ensures Valid() && boundary == old(boundary)
      ensures View() == FinishTimeout(old(View()), failure, completionEvent, policy)
    {
      hide TurnBoundary.Valid, TurnBoundary.View, TrimSpace;
      if policy == SoftComplete && TrimSpace(assistantContent) != "" {
        CompleteTurn(assistantContent, completionEvent);
      } else {
        PersistFailed(failure, failure);
      }
    }
  }

  lemma {:induction false} StaysFinished(
    cfg: Config, classify: Classifier, launch: Launch, arrivals: seq<Arrival>, j: nat)
    requires j <= |arrivals| && TurnAfter(cfg, classify, launch, arrivals[..j]).outcome != Going
    ensures TurnAfter(cfg, classify, launch, arrivals) == TurnAfter(cfg, classify, launch, arrivals[..j])
  {
    TextOnlyGrows(cfg, classify, launch, arrivals, j);
  }
}
