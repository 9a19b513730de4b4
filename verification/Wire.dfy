/** Decoded wire frames and the predicates the client takes on them (stream_terminal.go,
    inbound_priority.go, turn_boundary.go, appkit/events.go). */
module Wire {
  import opened Text
  import opened TurnId

  /** A decoded JSON value; a frame is an `Obj`, and Go's nil map is any other value. */
  datatype Json =
    | Null
    | Bool(b: bool)
    | Num(n: real)
    | Str(s: string)
    | Arr(items: seq<Json>)
    | Obj(fields: map<string, Json>)

  /** Lookup in a map; an absent key and a JSON null both read as nil. */
  function Get(j: Json, key: string): Json {
    if j.Obj? && key in j.fields then j.fields[key] else Null
  }

  function AsString(j: Json): string {
    if j.Str? then j.s else ""
  }

  function StrField(j: Json, key: string): string {
    AsString(Get(j, key))
  }

  const STREAM_END := "soothe.stream.end"
  const STRANGE_LOOP_COMPLETED := "soothe.cognition.strange_loop.completed"
  const CARD_CREATED := "soothe.card.created"
  const CARD_UPDATED := "soothe.card.updated"
  const CARD_FINALIZED := "soothe.card.finalized"
  const CARD_REPLAY_BEGIN := "soothe.card.replay.begin"
  const CARD_REPLAY_END := "soothe.card.replay.end"

  const TURN_PROGRESS_TYPES := {
    "soothe.cognition.plan.created",
    "soothe.cognition.strange_loop.step.started",
    "soothe.cognition.strange_loop.step.queued",
    "soothe.cognition.strange_loop.step.completed",
    CARD_CREATED, CARD_UPDATED, CARD_FINALIZED
  }

  const STALE_TYPES := {
    "connection_ack", CARD_REPLAY_BEGIN, CARD_REPLAY_END, CARD_CREATED, "complete"
  }

  /** A custom payload that ends a turn. The scope is compared in lower case; only ASCII letters
      fold into the letters of "turn". */
  predicate IsTurnEndCustomData(data: Json) {
    var customType := TrimSpace(StrField(data, "type"));
    var scope := TrimSpace(StrField(data, "scope"));
    && data.Obj?
    && (|| customType == STRANGE_LOOP_COMPLETED
        || (customType == STREAM_END && (scope == "" || EqualFold(scope, "turn"))))
  }

  /** A chunk that proves progress of the turn beyond its intake. */
  predicate IsTurnProgressChunk(mode: string, data: Json) {
    if mode == "messages" || mode == "updates" then true
    else if mode != "custom" || IsTurnEndCustomData(data) || !data.Obj? then false
    else
      var customType := TrimSpace(StrField(data, "type"));
      customType in TURN_PROGRESS_TYPES || "soothe.cognition.strange_loop.step" <= customType
  }

  /** The turn id of a frame, or of the custom data nested in it. */
  function FrameTurnID(frame: Json): string {
    var own := TrimSpace(StrField(frame, "turn_id"));
    if own != "" then own else TrimSpace(StrField(Get(frame, "data"), "turn_id"))
  }

  /** appkit.UnwrapNext. */
  function UnwrapNext(frame: Json): Json {
    if StrField(frame, "type") != "next" then frame
    else
      var inner := Get(Get(frame, "payload"), "data");
      if inner.Obj? then inner else frame
  }

  /** The label under which a frame may be dropped at turn start, or "". */
  function StalePendingFrameLabel(event: Json): string {
    var eventType := StrField(event, "type");
    if !event.Obj? then ""
    else if eventType in STALE_TYPES then eventType
    else if eventType == "next" then
      var payload := Get(event, "payload");
      var mode := StrField(payload, "mode");
      if !payload.Obj? then ""
      else if mode in STALE_TYPES then mode
      else
        var inner := Get(payload, "data");
        if inner.Obj? then StalePendingFrameLabel(inner) else ""
    else if eventType == "event" && StrField(event, "mode") == "custom"
            && IsTurnEndCustomData(Get(event, "data")) then
      TrimSpace(StrField(Get(event, "data"), "type"))
    else ""
  }

  const CRITICAL := 0
  const HIGH := 1
  const NORMAL := 2

  predicate MessagesWireTerminal(data: Json) {
    && data.Arr? && |data.items| > 0 && data.items[0].Obj?
    && Contains(StrField(data.items[0], "type"), "stream.end")
  }

  predicate GoalCompletion(data: Json) {
    && data.Arr? && |data.items| > 0 && data.items[0].Obj?
    && StrField(data.items[0], "phase") == "goal_completion"
  }

  function InboundFrameDropPriority(event: Json): int {
    var eventType := StrField(event, "type");
    if !event.Obj? then CRITICAL
    else if eventType == "event_batch" || eventType == "tool_call_updates_batch" then HIGH
    else if eventType == "next" && Get(event, "payload").Obj? then
      var payload := Get(event, "payload");
      var inner := Get(payload, "data");
      if StrField(payload, "mode") == "messages" && (MessagesWireTerminal(inner) || GoalCompletion(inner)) then
        CRITICAL
      else if StrField(payload, "type") == "complete" then CRITICAL
      else if inner.Obj? then InboundFrameDropPriority(inner)
      else FlatPriority(StrField(payload, "type"), event)
    else FlatPriority(eventType, event)
  }

  /** The priority of a frame by its (possibly unwrapped) type. */
  function FlatPriority(eventType: string, event: Json): int {
    var data := Get(event, "data");
    var mode := StrField(event, "mode");
    var customType := StrField(data, "type");
    if eventType in {"complete", "error", "connection_ack"} then CRITICAL
    else if eventType == "status" && StrField(event, "state") in {"idle", "running", "stopped", "detached"} then
      CRITICAL
    else if eventType != "event" then NORMAL
    else if mode == "custom" then
      if IsTurnEndCustomData(data) then CRITICAL
      else if !data.Obj? then NORMAL
      else if "soothe.cognition." <= customType then HIGH
      else if "soothe.error." <= customType || customType == "stream_degraded" then CRITICAL
      else if customType == "soothe.ux.stream_tool_wire.tool_call_updates_batch" then HIGH
      else NORMAL
    else if mode == "messages" && (MessagesWireTerminal(data) || GoalCompletion(data)) then CRITICAL
    else NORMAL
  }

  /** Frames whose receipt is acknowledged to the daemon. */
  predicate InboundNeedsDeliveryAck(event: Json) {
    var eventType := StrField(event, "type");
    var payload := Get(event, "payload");
    || eventType == "complete"
    || (&& eventType == "next" && Get(payload, "data").Obj? && StrField(payload, "mode") == "event"
        && NeedsAckFromEventShape(Get(payload, "data")))
    || (eventType == "event" && NeedsAckFromEventShape(event))
  }

  predicate NeedsAckFromEventShape(event: Json) {
    var mode := StrField(event, "mode");
    var data := Get(event, "data");
    || (mode == "custom" && IsTurnEndCustomData(data))
    || (mode == "messages" && MessagesWireTerminal(data))
  }

  function ExtractLoopIDFromInbound(event: Json): string {
    var own := TrimSpace(StrField(event, "loop_id"));
    var payload := Get(event, "payload");
    if own != "" then own
    else if StrField(event, "type") != "next" then ""
    else
      var id := TrimSpace(StrField(payload, "loop_id"));
      if id != "" then id else TrimSpace(StrField(Get(payload, "data"), "loop_id"))
  }

  /** The byte scan behind the "stream.end" test finds the first occurrence, and fails exactly
      when there is none. */
  method IndexOf(s: string, sub: string) returns (r: int)
    ensures r < 0 <==> !Contains(s, sub)
    ensures r >= 0 ==> r + |sub| <= |s| && OccursAt(s, sub, r) && forall k :: 0 <= k < r ==> !OccursAt(s, sub, k)
  {
    var i := 0;
    while i + |sub| <= |s|
      invariant 0 <= i
      invariant forall k :: 0 <= k < i && k <= |s| ==> !OccursAt(s, sub, k)
    {
      assert s[i..][..|sub|] == s[i..i + |sub|];
      if s[i..i + |sub|] == sub {
        assert OccursAt(s, sub, i);
        return i;
      }
      i := i + 1;
    }
    return -1;
  }

  /** `frame` is a custom turn-end event inside `depth` nested `next` envelopes. */
  predicate WrappedTurnEnd(frame: Json, depth: nat)
    decreases depth
  {
    && frame.Obj?
    && if depth == 0 then
         && StrField(frame, "type") == "event" && StrField(frame, "mode") == "custom"
         && IsTurnEndCustomData(Get(frame, "data"))
       else
         && StrField(frame, "type") == "next"
         && WrappedTurnEnd(Get(Get(frame, "payload"), "data"), depth - 1)
  }

  /** However deeply a turn end is wrapped, it is peeled at turn start and kept under
      backpressure. */
  lemma {:induction false} WrappedTurnEndIsStaleAndCritical(frame: Json, depth: nat)
    requires WrappedTurnEnd(frame, depth)
    ensures StalePendingFrameLabel(frame) != ""
    ensures InboundFrameDropPriority(frame) == CRITICAL
  {
    assert "" !in STALE_TYPES;
    if depth > 0 {
      WrappedTurnEndIsStaleAndCritical(Get(Get(frame, "payload"), "data"), depth - 1);
    }
  }

  lemma {:induction false} PriorityRange(event: Json)
    ensures InboundFrameDropPriority(event) in {CRITICAL, HIGH, NORMAL}
  {
    if StrField(event, "type") == "next" && Get(Get(event, "payload"), "data").Obj? {
      PriorityRange(Get(Get(event, "payload"), "data"));
    }
  }

  /** A turn-end payload is never progress, so it cannot justify itself. */
  lemma TurnEndIsNotProgress(data: Json)
    requires IsTurnEndCustomData(data)
    ensures !IsTurnProgressChunk("custom", data)
  {
  }

  // ---------------------------------------------------------------- frames by their wire names

  /** The chunks that prove progress: messages, updates, and the named custom payloads. */
  predicate NamesProgress(mode: string, data: Json) {
    var typ := TrimSpace(StrField(data, "type"));
    || mode == "messages"
    || mode == "updates"
    || (&& mode == "custom" && data.Obj?
        && (|| typ == "soothe.cognition.plan.created"
            || typ in {"soothe.card.created", "soothe.card.updated", "soothe.card.finalized"}
            || "soothe.cognition.strange_loop.step" <= typ))
  }

  /** The custom payloads that end a turn: a completed strange loop, and the end of a stream whose
      scope is the turn or not given. */
  predicate NamesTurnEnd(data: Json) {
    && data.Obj?
    && match TrimSpace(StrField(data, "type"))
       case "soothe.cognition.strange_loop.completed" => true
       case "soothe.stream.end" =>
         TrimSpace(StrField(data, "scope")) == "" || EqualFold(TrimSpace(StrField(data, "scope")), "turn")
       case _ => false
  }

  lemma TurnEndByName(data: Json)
    ensures IsTurnEndCustomData(data) <==> NamesTurnEnd(data)
  {
  }

  lemma ProgressByName(mode: string, data: Json)
    ensures IsTurnProgressChunk(mode, data) <==> NamesProgress(mode, data)
  {
    hide TrimSpace, EqualFold;
    assert "soothe.cognition.strange_loop.step" <= "soothe.cognition.strange_loop.step.started";
    assert "soothe.cognition.strange_loop.step" <= "soothe.cognition.strange_loop.step.queued";
    assert "soothe.cognition.strange_loop.step" <= "soothe.cognition.strange_loop.step.completed";
    assert "messages"[0] == 'm' && "updates"[0] == 'u' && "custom"[0] == 'c';
    assert STRANGE_LOOP_COMPLETED[30] == 'c' && "soothe.cognition.strange_loop.step"[30] == 's';
    assert STREAM_END[7] == 's' && "soothe.cognition.strange_loop.step"[7] == 'c';
    assert |STREAM_END| == 17 && |STRANGE_LOOP_COMPLETED| == 39 && |"soothe.cognition.plan.created"| == 29;
    assert |"soothe.card.created"| == 19 && |"soothe.card.updated"| == 19 && |"soothe.card.finalized"| == 21;
  }

  /** A batch of wire messages starts with a terminal or goal-completion message. */
  predicate NamesTerminal(data: Json) {
    && data.Arr? && |data.items| > 0 && data.items[0].Obj?
    && (|| Contains(StrField(data.items[0], "type"), "stream.end")
        || StrField(data.items[0], "phase") == "goal_completion")
  }

  /** The frames to keep under backpressure, taken as being of the given type: terminals, states and
      errors. */
  predicate NamesCritical(typ: string, frame: Json) {
    var mode, data := StrField(frame, "mode"), Get(frame, "data");
    var custom := StrField(data, "type");
    || typ in {"complete", "error", "connection_ack"}
    || (typ == "status" && StrField(frame, "state") in {"idle", "running", "stopped", "detached"})
    || (typ == "event" && mode == "messages" && NamesTerminal(data))
    || (typ == "event" && mode == "custom" && NamesTurnEnd(data))
    || (typ == "event" && mode == "custom" && data.Obj? && ("soothe.error." <= custom || custom == "stream_degraded"))
  }

  /** The frames to keep rather than plain chunks: cognition events and updates of tool calls. */
  predicate NamesHigh(typ: string, frame: Json) {
    var custom := StrField(Get(frame, "data"), "type");
    && typ == "event" && StrField(frame, "mode") == "custom" && Get(frame, "data").Obj?
    && ("soothe.cognition." <= custom || custom == "soothe.ux.stream_tool_wire.tool_call_updates_batch")
  }

  function PriorityNamed(typ: string, frame: Json): int {
    if NamesCritical(typ, frame) then 0 else if NamesHigh(typ, frame) then 1 else 2
  }

  lemma FlatByName(typ: string, frame: Json)
    ensures FlatPriority(typ, frame) == PriorityNamed(typ, frame)
  {
    hide TrimSpace, Contains, IsTurnEndCustomData, NamesTurnEnd;
    TurnEndByName(Get(frame, "data"));
    assert "soothe.error."[7] == 'e' && "soothe.cognition."[7] == 'c' && "stream_degraded"[1] == 't';
    assert "soothe.error."[1] == 'o' && "soothe.cognition."[1] == 'o';
    assert "soothe.ux.stream_tool_wire.tool_call_updates_batch"[7] == 'u';
    assert |"status"| == 6 && |"event"| == 5 && |"complete"| == 8 && |"connection_ack"| == 14;
    assert "error"[1] == 'r' && "event"[1] == 'v' && |"messages"| == 8 && |"custom"| == 6;
  }

  /** The priority of every frame that is not a `next` envelope: batches are HIGH, the others by
      name. */
  lemma PriorityByName(frame: Json)
    requires frame.Obj? && StrField(frame, "type") != "next"
    ensures InboundFrameDropPriority(frame) ==
            if StrField(frame, "type") in {"event_batch", "tool_call_updates_batch"} then 1
            else PriorityNamed(StrField(frame, "type"), frame)
  {
    hide PriorityNamed;
    FlatByName(StrField(frame, "type"), frame);
  }

  /** A `next` envelope has the priority of the frame inside, unless it is terminal itself. */
  lemma PriorityOfNext(frame: Json)
    requires frame.Obj? && StrField(frame, "type") == "next"
    ensures var payload := Get(frame, "payload");
            InboundFrameDropPriority(frame) ==
            if !payload.Obj? then 2
            else if StrField(payload, "mode") == "messages" && NamesTerminal(Get(payload, "data")) then 0
            else if StrField(payload, "type") == "complete" then 0
            else if Get(payload, "data").Obj? then InboundFrameDropPriority(Get(payload, "data"))
            else PriorityNamed(StrField(payload, "type"), frame)
  {
    hide PriorityNamed, Contains;
    FlatByName(StrField(Get(frame, "payload"), "type"), frame);
    assert "next"[0] == 'n' && "event_batch"[0] == 'e' && "tool_call_updates_batch"[0] == 't';
    assert "complete"[0] == 'c' && "error"[0] == 'e' && "connection_ack"[0] == 'c' && "status"[0] == 's';
  }

  /** The frames to drop at turn start: leftovers of handshakes, card replays and completions, and
      turn ends. */
  lemma StaleByName(frame: Json)
    requires frame.Obj? && StrField(frame, "type") != "next"
    ensures var typ := StrField(frame, "type");
            var leftover := typ in {"connection_ack", "complete", "soothe.card.created", "soothe.card.replay.begin",
                                    "soothe.card.replay.end"};
            && (leftover ==> StalePendingFrameLabel(frame) == typ)
            && (!leftover && StalePendingFrameLabel(frame) != "" ==>
                  StalePendingFrameLabel(frame) == TrimSpace(StrField(Get(frame, "data"), "type")))
            && (StalePendingFrameLabel(frame) != "" <==>
                  || leftover
                  || (typ == "event" && StrField(frame, "mode") == "custom" && NamesTurnEnd(Get(frame, "data"))))
  {
    TurnEndByName(Get(frame, "data"));
    hide TrimSpace;
  }

  /** A `next` envelope is stale for its mode or for the frame inside. */
  lemma StaleNext(frame: Json)
    requires frame.Obj? && StrField(frame, "type") == "next"
    ensures var payload := Get(frame, "payload");
            var leftover := StrField(payload, "mode") in {"connection_ack", "complete", "soothe.card.created",
                                                         "soothe.card.replay.begin", "soothe.card.replay.end"};
            StalePendingFrameLabel(frame) != "" <==>
            leftover || (Get(payload, "data").Obj? && StalePendingFrameLabel(Get(payload, "data")) != "")
  {
    assert "next"[0] == 'n' && "soothe.card.created"[0] == 's' && "connection_ack"[0] == 'c' && "complete"[0] == 'c';
  }

  /** An event that ends a turn, or a message stream. */
  predicate NamesEnd(event: Json) {
    var data := Get(event, "data");
    || (StrField(event, "mode") == "custom" && NamesTurnEnd(data))
    || (&& StrField(event, "mode") == "messages" && data.Arr? && |data.items| > 0 && data.items[0].Obj?
        && Contains(StrField(data.items[0], "type"), "stream.end"))
  }

  /** The frames that are acknowledged: completions, ends, and ends wrapped as an event. */
  lemma AckByName(frame: Json)
    ensures var payload := Get(frame, "payload");
            InboundNeedsDeliveryAck(frame) <==>
            match StrField(frame, "type")
            case "complete" => true
            case "event" => NamesEnd(frame)
            case "next" =>
              StrField(payload, "mode") == "event" && Get(payload, "data").Obj? && NamesEnd(Get(payload, "data"))
            case _ => false
  {
    TurnEndByName(Get(frame, "data"));
    TurnEndByName(Get(Get(Get(frame, "payload"), "data"), "data"));
    hide TrimSpace, Contains, IsTurnEndCustomData, NamesTurnEnd;
  }

  function FirstNonBlank(ids: seq<string>): string {
    if ids == [] then "" else if !Blank(ids[0]) then TrimSpace(ids[0]) else FirstNonBlank(ids[1..])
  }

  /** The loop a frame is for: named by itself, or for an envelope by its payload or the frame
      inside. */
  lemma LoopByName(frame: Json)
    ensures var payload := Get(frame, "payload");
            var own, outer := StrField(frame, "loop_id"), StrField(payload, "loop_id");
            var inner := StrField(Get(payload, "data"), "loop_id");
            ExtractLoopIDFromInbound(frame) ==
            FirstNonBlank(if StrField(frame, "type") == "next" then [own, outer, inner] else [own])
  {
    hide TrimSpace;
    var payload := Get(frame, "payload");
    var own, outer := StrField(frame, "loop_id"), StrField(payload, "loop_id");
    var inner := StrField(Get(payload, "data"), "loop_id");
    assert [own, outer, inner][1..] == [outer, inner] && [outer, inner][1..] == [inner] && [inner][1..] == [];
    assert FirstNonBlank([inner]) == if Blank(inner) then "" else TrimSpace(inner);
    assert FirstNonBlank([outer, inner]) == if Blank(outer) then FirstNonBlank([inner]) else TrimSpace(outer);
    assert [own][1..] == [];
  }
}
