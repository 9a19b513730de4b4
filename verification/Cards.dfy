/** The display cards as a projection of `soothe.card.*` frames (card_projection.go). */
module Cards {
  import opened Shared
  import opened Text
  import opened Wire

  type Card = map<string, Json>

  datatype Parsed = ReplayBegin | ReplayEnd | Created(card: Card) | Patched(patch: Card)

  function Id(card: Card): string {
    TrimSpace(StrField(Obj(card), "id"))
  }

  /** The payload of a card frame, with the id of the frame filled in when it has none. */
  function PayloadOf(data: Json): Card {
    var raw := Get(data, "data");
    var payload := if raw.Obj? then raw.fields else map[];
    var own := TrimSpace(StrField(data, "card_id"));
    if Id(payload) == "" && own != "" then payload["id" := Str(own)] else payload
  }

  function ParseCardCustomPayload(data: Json): Option<Parsed> {
    var wireType := TrimSpace(StrField(data, "type"));
    var raw := Get(data, "data");
    if !data.Obj? then None
    else if wireType == CARD_REPLAY_BEGIN then Some(ReplayBegin)
    else if wireType == CARD_REPLAY_END then Some(ReplayEnd)
    else if wireType == CARD_CREATED then
      if Get(raw, "type") == Null || Get(raw, "content") == Null then None else Some(Created(PayloadOf(data)))
    else if wireType == CARD_UPDATED || wireType == CARD_FINALIZED then Some(Patched(PayloadOf(data)))
    else None
  }

  datatype Projection = Projection(cards: map<string, Card>, order: seq<string>, replaying: bool)

  const EMPTY := Projection(map[], [], false)

  /** A patch never changes the id or the type of a card. */
  function Merged(existing: Card, patch: Card): Card {
    existing + (patch - {"id", "type"})
  }

  function Applied(p: Projection, parsed: Parsed): Projection {
    match parsed
    case ReplayBegin => Projection(map[], [], true)
    case ReplayEnd => p.(replaying := false)
    case Created(card) =>
      if Id(card) == "" then p
      else p.(cards := p.cards[Id(card) := card],
              order := if Id(card) in p.cards then p.order else p.order + [Id(card)])
    case Patched(patch) =>
      if Id(patch) == "" || Id(patch) !in p.cards then p
      else p.(cards := p.cards[Id(patch) := Merged(p.cards[Id(patch)], patch)])
  }

  function Apply(p: Projection, data: Json): Projection {
    var parsed := ParseCardCustomPayload(data);
    if parsed.None? then p else Applied(p, parsed.value)
  }

  function ApplyAll(frames: seq<Json>): Projection {
    if frames == [] then EMPTY else Apply(ApplyAll(frames[..|frames| - 1]), frames[|frames| - 1])
  }

  // ---------------------------------------------------------------- what every run keeps

  /** `order` lists exactly the cards, each once, and each card is stored under its trimmed id. */
  predicate Listed(p: Projection) {
    && (forall i, j :: 0 <= i < j < |p.order| ==> p.order[i] != p.order[j])
    && (forall i :: 0 <= i < |p.order| ==> p.order[i] in p.cards)
    && (forall k :: k in p.cards ==> k in p.order)
    && (forall k :: k in p.cards ==> k != "" && Id(p.cards[k]) == k)
  }

  lemma MergedKeepsId(existing: Card, patch: Card)
    ensures Id(Merged(existing, patch)) == Id(existing)
    ensures Get(Obj(Merged(existing, patch)), "type") == Get(Obj(existing), "type")
  {
    hide TrimSpace;
  }

  lemma AppliedListed(p: Projection, parsed: Parsed)
    requires Listed(p)
    ensures Listed(Applied(p, parsed))
  {
    hide Id, Merged;
    if parsed.Patched? && Id(parsed.patch) in p.cards {
      MergedKeepsId(p.cards[Id(parsed.patch)], parsed.patch);
    }
    if parsed.Created? && Id(parsed.card) != "" && Id(parsed.card) !in p.cards {
      var order := p.order + [Id(parsed.card)];
      assert order[|p.order|] == Id(parsed.card);
      assert forall k :: k in p.order ==> k in order;
    }
  }

  lemma {:induction false} AlwaysListed(frames: seq<Json>)
    ensures Listed(ApplyAll(frames))
  {
    hide ParseCardCustomPayload, Applied, Listed;
    if frames == [] {
      EmptyListed();
    } else {
      AlwaysListed(frames[..|frames| - 1]);
      var parsed := ParseCardCustomPayload(frames[|frames| - 1]);
      if parsed.Some? {
        AppliedListed(ApplyAll(frames[..|frames| - 1]), parsed.value);
      }
    }
  }

  lemma EmptyListed()
    ensures Listed(EMPTY)
  {
  }

  /** The frame creates the card with the given id. */
  predicate Creates(data: Json, id: string) {
    var parsed := ParseCardCustomPayload(data);
    parsed.Some? && parsed.value.Created? && Id(parsed.value.card) == id
  }

  /** The type of a card changes only by a created frame with its id. */
  lemma TypeChangesOnlyByCreated(p: Projection, data: Json, id: string)
    requires id in p.cards && id in Apply(p, data).cards && !Creates(data, id)
    ensures Get(Obj(Apply(p, data).cards[id]), "type") == Get(Obj(p.cards[id]), "type")
  {
    hide Id, Merged, ParseCardCustomPayload;
    var parsed := ParseCardCustomPayload(data);
    if parsed.Some? && parsed.value.Patched? {
      MergedKeepsId(p.cards[id], parsed.value.patch);
    }
  }

  /** The id a card frame is about: that of its payload, or else its own. */
  function FrameId(data: Json): string {
    var inner := TrimSpace(StrField(Get(data, "data"), "id"));
    if inner != "" then inner else TrimSpace(StrField(data, "card_id"))
  }

  lemma PayloadId(data: Json)
    ensures Id(PayloadOf(data)) == FrameId(data)
    ensures forall k :: k != "id" ==> Get(Obj(PayloadOf(data)), k) == Get(Get(data, "data"), k)
  {
    TrimTwice(StrField(data, "card_id"));
    hide TrimSpace;
  }

  /** An update of a known card: every field that the patch has, except id and type, takes the value of
      the patch, every other field stays, and so does every other card. */
  lemma UpdateChanges(p: Projection, data: Json, k: string)
    requires TrimSpace(StrField(data, "type")) in {"soothe.card.updated", "soothe.card.finalized"}
    requires FrameId(data) != "" && FrameId(data) in p.cards
    ensures var id, after := FrameId(data), Apply(p, data);
            var patch := Get(data, "data");
            && after == p.(cards := after.cards) && after.cards.Keys == p.cards.Keys
            && (forall other :: other in p.cards && other != id ==> after.cards[other] == p.cards[other])
            && Get(Obj(after.cards[id]), k)
               == if k !in {"id", "type"} && patch.Obj? && k in patch.fields then patch.fields[k]
                  else Get(Obj(p.cards[id]), k)
  {
    UpdateParsed(data);
    PayloadId(data);
    if k != "id" {
      PayloadFields(data, k);
    }
    MergedFields(p.cards[FrameId(data)], PayloadOf(data), k);
    hide TrimSpace, ParseCardCustomPayload, PayloadOf, Id, FrameId, Merged;
  }

  lemma MergedFields(existing: Card, patch: Card, k: string)
    ensures Get(Obj(Merged(existing, patch)), k)
         == if k !in {"id", "type"} && k in patch then patch[k] else Get(Obj(existing), k)
  {
  }

  /** The other frames: a replay begins with nothing and ends; an update of no known card, and any
      frame that is no card frame, change nothing. */
  lemma OtherFrames(p: Projection, data: Json)
    ensures var typ, after := TrimSpace(StrField(data, "type")), Apply(p, data);
            && (typ == "soothe.card.replay.begin" ==> after == Projection(map[], [], true))
            && (typ == "soothe.card.replay.end" ==> after == Projection(p.cards, p.order, false))
            && (typ in {"soothe.card.updated", "soothe.card.finalized"} && FrameId(data) !in p.cards ==> after == p)
            && (typ in {"soothe.card.replay.begin", "soothe.card.replay.end", "soothe.card.created"}
                || typ in {"soothe.card.updated", "soothe.card.finalized"}
                || after == p)
  {
    var typ := TrimSpace(StrField(data, "type"));
    TrimOfTrimmed("");
    PayloadId(data);
    if typ in {"soothe.card.updated", "soothe.card.finalized"} {
      UpdateParsed(data);
    }
    hide TrimSpace, PayloadOf, Id, FrameId, Merged;
    assert |"soothe.card.replay.begin"| == 24 && |"soothe.card.replay.end"| == 22;
  }

  lemma PayloadFields(data: Json, k: string)
    requires k != "id"
    ensures var patch := Get(data, "data");
            k in PayloadOf(data) <==> patch.Obj? && k in patch.fields
    ensures k in PayloadOf(data) ==> PayloadOf(data)[k] == Get(Get(data, "data"), k)
  {
    hide TrimSpace;
  }

  lemma UpdateParsed(data: Json)
    requires TrimSpace(StrField(data, "type")) in {"soothe.card.updated", "soothe.card.finalized"}
    ensures ParseCardCustomPayload(data) == Some(Patched(PayloadOf(data)))
  {
    hide PayloadOf;
    TrimOfTrimmed("");
    assert "soothe.card.updated"[12] == 'u' && "soothe.card.finalized"[12] == 'f' && "soothe.card.created"[12] == 'c';
    assert "soothe.card.replay.begin"[12] == 'r' && "soothe.card.replay.end"[12] == 'r';
    hide TrimSpace;
  }

  /** A created frame with type and content stores its card as given, under its id, in the last place
      when the id is new; without them it is no card frame. */
  lemma CreatedStores(p: Projection, data: Json)
    requires TrimSpace(StrField(data, "type")) == "soothe.card.created" && FrameId(data) != ""
    ensures var id, after := FrameId(data), Apply(p, data);
            if Get(Get(data, "data"), "type") == Null || Get(Get(data, "data"), "content") == Null then after == p
            else
              && id in after.cards && after.order == (if id in p.cards then p.order else p.order + [id])
              && (forall k :: k != "id" ==> Get(Obj(after.cards[id]), k) == Get(Get(data, "data"), k))
              && (forall other :: other in p.cards && other != id ==>
                    other in after.cards && after.cards[other] == p.cards[other])
              && after.replaying == p.replaying
  {
    PayloadId(data);
    CreatedParsed(data);
    hide TrimSpace, ParseCardCustomPayload, PayloadOf, Id, FrameId;
  }

  lemma CreatedParsed(data: Json)
    requires TrimSpace(StrField(data, "type")) == "soothe.card.created"
    ensures ParseCardCustomPayload(data)
         == if Get(Get(data, "data"), "type") == Null || Get(Get(data, "data"), "content") == Null then None
            else Some(Created(PayloadOf(data)))
  {
    hide PayloadOf;
    TrimOfTrimmed("");
    assert "soothe.card.created"[12] == 'c';
    assert "soothe.card.replay.begin"[12] == 'r' && "soothe.card.replay.end"[12] == 'r';
    hide TrimSpace;
  }

  predicate BeginsReplay(data: Json) {
    ParseCardCustomPayload(data) == Some(ReplayBegin)
  }

  /** The state after a run is that of a fresh projection fed only from any replay.begin on, so in
      particular from the last one. */
  lemma {:induction false} ReplayForgetsThePast(frames: seq<Json>, j: nat)
    requires j < |frames| && BeginsReplay(frames[j])
    ensures ApplyAll(frames) == ApplyAll(frames[j..])
  {
    hide ParseCardCustomPayload;
    var n := |frames| - 1;
    if j == n {
      assert frames[j..] == [frames[j]] && [frames[j]][..0] == [];
    } else {
      ReplayForgetsThePast(frames[..n], j);
      assert frames[j..][..|frames[j..]| - 1] == frames[..n][j..];
    }
  }

  // ---------------------------------------------------------------- the object

  class CardProjection {
    var cards: map<string, Card>
    var order: seq<string>
    var replaying: bool

    function View(): Projection
      reads this
    {
      Projection(cards, order, replaying)
    }

    constructor ()
      ensures View() == EMPTY
    {
      cards, order, replaying := map[], [], false;
    }

    /** Applying a frame; it is handled exactly when it is a card frame. */
    method ApplyFrame(data: Json) returns (handled: bool)
      modifies this
      ensures View() == Apply(old(View()), data)
      ensures handled == ParseCardCustomPayload(data).Some?
    {
      hide ParseCardCustomPayload, TrimSpace;
      var parsed := ParseCardCustomPayload(data);
      if parsed.None? {
        return false;
      }
      match parsed.value
      case ReplayBegin =>
        replaying := true;
        cards := map[];
        order := [];
        return true;
      case ReplayEnd =>
        replaying := false;
        return true;
      case Created(card) =>
        var id := Id(card);
        if id == "" {
          return true;
        }
        if id !in cards {
          order := order + [id];
        }
        cards := cards[id := card];
        return true;
      case Patched(patch) =>
        var id := Id(patch);
        if id == "" || id !in cards {
          return true;
        }
        var next := Merge(cards[id], patch);
        cards := cards[id := next];
        return true;
    }

    /** The cards in insertion order, all of them when the projection is listed. */
    method Snapshot() returns (out: seq<Card>)
      ensures Listed(View()) ==> |out| == |order| && forall i :: 0 <= i < |order| ==> out[i] == cards[order[i]]
      ensures forall c :: c in out ==> exists id :: id in order && id in cards && cards[id] == c
    {
      hide Id;
      out := [];
      for i := 0 to |order|
        invariant Listed(View()) ==> |out| == i && forall k :: 0 <= k < i ==> out[k] == cards[order[k]]
        invariant forall c :: c in out ==> exists id :: id in order && id in cards && cards[id] == c
      {
        if order[i] in cards {
          out := out + [cards[order[i]]];
        }
      }
    }
  }

  /** The fields of a patch copied so far. */
  function Copied(existing: Card, patch: Card, rest: set<string>): Card {
    existing + (patch - {"id", "type"} - rest)
  }

  lemma CopyOne(existing: Card, patch: Card, rest: set<string>, k: string)
    requires k in rest && k in patch
    ensures Copied(existing, patch, rest - {k})
         == if k in {"id", "type"} then Copied(existing, patch, rest) else Copied(existing, patch, rest)[k := patch[k]]
  {
    var one, all := Copied(existing, patch, rest - {k}), Copied(existing, patch, rest);
    assert forall l :: l in one <==> l in all || (l == k && k !in {"id", "type"});
  }

  lemma CopyEnds(existing: Card, patch: Card)
    ensures Copied(existing, patch, patch.Keys) == existing && Copied(existing, patch, {}) == Merged(existing, patch)
  {
  }

  /** The copy loop of a patch. */
  method Merge(existing: Card, patch: Card) returns (next: Card)
    ensures next == Merged(existing, patch)
  {
    hide Copied, Merged;
    CopyEnds(existing, patch);
    next := existing;
    var keys := patch.Keys;
    while keys != {}
      invariant keys <= patch.Keys && next == Copied(existing, patch, keys)
      decreases |keys|
    {
      var k :| k in keys;
      CopyOne(existing, patch, keys, k);
      keys := keys - {k};
      if k == "id" || k == "type" {
        continue;
      }
      next := next[k := patch[k]];
    }
  }
}
