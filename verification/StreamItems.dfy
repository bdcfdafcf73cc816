/** What a client sees of a turn: the stream shows exactly what the agent sent,
    and no finished tool call is left without its evidence. */
module StreamItems {
  import opened Wrappers
  import opened RuntimeTypes
  import opened EventStream

  datatype Item =
    | Text(content: string)
    | Attachment(part: string)
    | Started(toolCallId: string, name: string)
    | Finished(toolCallId: string, name: string, success: bool)
    | Recorded(kind: string)
    | Stored(id: string)

  /** What one fact shows; gates only repeat. */
  function Shown(fact: Fact): seq<Item> {
    match fact
    case AssistantDelta(_, _, _, content) => [Text(content)]
    case AgentMessagePart(_, _, part) => [Attachment(part)]
    case ToolCallStarted(id, name, _) => [Started(id, name)]
    case ToolCallFinished(id, name, success, _) => [Finished(id, name, success)]
    case EvidenceRecorded(evidence) =>
      if evidence.kind == CONTENT_KIND then [Stored(evidence.id)] else [Recorded(evidence.kind)]
    case _ => []
  }

  function Items(events: seq<Event>): seq<Item> {
    if events == [] then [] else Items(events[..|events| - 1]) + Shown(events[|events| - 1].fact)
  }

  /** The four words for a call that did not succeed; no word means it did. */
  predicate ReportsFailure(status: Option<string>) {
    status.Some? && status.value in {"failed", "error", "cancelled", "canceled"}
  }

  lemma SuccessIsNoFailure(status: Option<string>)
    ensures Succeeded(status.GetOr("completed")) <==> !ReportsFailure(status)
  {
    assert "completed"[1] == 'o' && "failed"[1] == 'a' && "error"[1] == 'r';
    assert "cancelled"[1] == 'a' && "canceled"[1] == 'a';
  }

  lemma KindsOfEvidence(turn: Turn, subject: string, n: nat, content: Content)
    ensures Shown(EvidenceRecorded(PatchEvidence(turn, subject, n))) == [Recorded("patch")]
    ensures Shown(EvidenceRecorded(ToolEvidence(turn, subject, n))) == [Recorded("tool_log")]
    ensures Shown(EvidenceRecorded(TurnEndEvidence(turn, n))) == [Recorded("acp_turn_end")]
    ensures Shown(EvidenceRecorded(ContentEvidence(turn, content))) == [Stored("acp-content-" + content.digest)]
  {
    assert "agent-content"[1] == 'g' && "patch"[1] == 'a' && "tool_log"[1] == 'o' && "acp_turn_end"[1] == 'c';
  }

  /** Does the agent call the update by one of these names? */
  predicate Called(kind: Option<string>, names: set<string>) {
    kind.Some? && kind.value in names
  }

  lemma NamesOfKinds(kind: Option<string>)
    ensures IsChunk(kind) <==> Called(kind, {"AgentMessageChunk", "agent_message_chunk"})
    ensures IsToolCall(kind) <==> Called(kind, {"ToolCall", "tool_call"})
    ensures IsToolCallUpdate(kind) <==> Called(kind, {"ToolCallUpdate", "tool_call_update"})
    ensures IsDiff(kind) <==> Called(kind, {
                                "Diff", "diff", "Patch", "patch", "FileChange", "file_change", "fileChange",
                                "file_change_patch", "file-patch", "diff-updated"})
    ensures IsTurnEnd(kind) <==> Called(kind, {"TurnEnd", "turn_end"})
  {
  }

  /** What one update says, whatever came before it. */
  function Sent(update: Update): seq<Item> {
    if Called(update.kind, {"AgentMessageChunk", "agent_message_chunk"}) then
      (match update.text case Some(content) => [Text(content)] case None => []) +
      match update.part
      case None => []
      case Some(Part(body, persisted)) =>
        (if persisted.Some? then [Stored("acp-content-" + persisted.value.digest)] else []) + [Attachment(body)]
    else if Called(update.kind, {"ToolCall", "tool_call"}) then [Started(update.toolCallId, update.title)]
    else if Called(update.kind, {"ToolCallUpdate", "tool_call_update"}) then
      (if update.hasPatch then [Recorded("patch")] else []) +
      [Finished(update.toolCallId, update.title, !ReportsFailure(update.status)), Recorded("tool_log")]
    else if Called(update.kind, {
                     "Diff", "diff", "Patch", "patch", "FileChange", "file_change", "fileChange",
                     "file_change_patch", "file-patch", "diff-updated"})
    then if update.hasPatch then [Recorded("patch")] else []
    else if Called(update.kind, {"TurnEnd", "turn_end"}) then [Recorded("acp_turn_end")]
    else []
  }

  function SentInAll(updates: seq<Update>): seq<Item> {
    if updates == [] then [] else SentInAll(updates[..|updates| - 1]) + Sent(updates[|updates| - 1])
  }

  lemma ItemsEmit(events: seq<Event>, fact: Fact)
    ensures Items(Emit(events, fact)) == Items(events) + Shown(fact)
  {
    assert Emit(events, fact)[..|events|] == events;
  }

  lemma ItemsEmitGate(events: seq<Event>, turn: Turn, status: GateStatus)
    ensures Items(EmitGate(events, turn, status)) == Items(events)
  {
    var fact := MergeGateUpdated(SessionMergeGate(turn, status, GateIds(events)));
    ItemsEmit(events, fact);
    assert Items(events) + [] == Items(events);
  }

  lemma ItemsOfTool(turn: Turn, events: seq<Event>, update: Update)
    requires !IsChunk(update.kind) && !IsToolCall(update.kind) && IsToolCallUpdate(update.kind)
    ensures Items(AfterTool(events, turn, update)) == Items(events) + Sent(update)
  {
    NamesOfKinds(update.kind);
    hide Items, Emit, EmitGate, IsChunk, IsToolCall, IsToolCallUpdate, IsDiff, IsTurnEnd, Called;
    var patched := events;
    SuccessIsNoFailure(update.status);
    if update.hasPatch {
      var patch := EvidenceRecorded(PatchEvidence(turn, update.toolCallId, |events| + 1));
      ItemsEmit(events, patch);
      patched := Emit(events, patch);
    }
    var evidence := ToolEvidence(turn, update.toolCallId, |patched| + 1);
    var success := Succeeded(update.status.GetOr("completed"));
    var fact := ToolCallFinished(update.toolCallId, update.title, success, evidence);
    ItemsEmit(patched, fact);
    ItemsEmit(Emit(patched, fact), EvidenceRecorded(evidence));
    ItemsEmitGate(Emit(Emit(patched, fact), EvidenceRecorded(evidence)), turn, CollectingEvidence);
  }

  lemma ItemsOfChunk(turn: Turn, events: seq<Event>, update: Update)
    requires IsChunk(update.kind)
    ensures Items(AfterPart(AfterText(events, turn, update.text), turn, update.part)) == Items(events) + Sent(update)
  {
    NamesOfKinds(update.kind);
    hide Items, Emit, IsChunk, IsToolCall, IsToolCallUpdate, IsDiff, IsTurnEnd, Called;
    var told := AfterText(events, turn, update.text);
    if update.text.Some? {
      ItemsEmit(events,
                AssistantDelta(turn.messageId, "acp-session-" + turn.sessionId, turn.sessionId, update.text.value));
    }
    if update.part.Some? {
      var recorded := told;
      if update.part.value.persisted.Some? {
        var evidence := ContentEvidence(turn, update.part.value.persisted.value);
        ItemsEmit(told, EvidenceRecorded(evidence));
        recorded := Emit(told, EvidenceRecorded(evidence));
      }
      ItemsEmit(recorded, AgentMessagePart(turn.sessionId, turn.messageId, update.part.value.part));
    }
  }

  lemma ItemsOfEvidence(turn: Turn, events: seq<Event>, evidence: Evidence)
    ensures Items(EmitGate(Emit(events, EvidenceRecorded(evidence)), turn, CollectingEvidence)) ==
            Items(events) + Shown(EvidenceRecorded(evidence))
  {
    hide Items, Emit, EmitGate;
    ItemsEmit(events, EvidenceRecorded(evidence));
    ItemsEmitGate(Emit(events, EvidenceRecorded(evidence)), turn, CollectingEvidence);
  }

  lemma ItemsAfterUpdate(turn: Turn, events: seq<Event>, update: Update)
    ensures Items(AfterUpdate(events, turn, update)) == Items(events) + Sent(update)
  {
    hide Items, Emit, EmitGate, AfterTool, AfterPart, AfterText, IsChunk, IsToolCall, IsToolCallUpdate, IsDiff;
    hide IsTurnEnd, Called;
    NamesOfKinds(update.kind);
    assert Items(events) + [] == Items(events);
    if IsChunk(update.kind) {
      ItemsOfChunk(turn, events, update);
    } else if IsToolCall(update.kind) {
      ItemsEmit(events, ToolCallStarted(update.toolCallId, update.title, turn.owner));
    } else if IsToolCallUpdate(update.kind) {
      ItemsOfTool(turn, events, update);
    } else if IsDiff(update.kind) {
      KindsOfEvidence(turn, turn.sessionId, |events| + 1, Content(""));
      ItemsOfEvidence(turn, events, PatchEvidence(turn, turn.sessionId, |events| + 1));
    } else if IsTurnEnd(update.kind) {
      KindsOfEvidence(turn, turn.sessionId, |events| + 1, Content(""));
      ItemsOfEvidence(turn, events, TurnEndEvidence(turn, |events| + 1));
    }
  }

  /** Text, attachments, calls and evidence appear as they were sent, in order,
      each once, and nothing else appears. */
  lemma {:induction false} StreamShowsWhatWasSent(turn: Turn, updates: seq<Update>)
    ensures Items(Stream(turn, updates)) == SentInAll(updates)
  {
    hide AfterUpdate, Sent, EmitGate;
    if updates == [] {
      ItemsEmitGate([], turn, Proposed);
    } else {
      var n := |updates| - 1;
      StreamShowsWhatWasSent(turn, updates[..n]);
      ItemsAfterUpdate(turn, Stream(turn, updates[..n]), updates[n]);
    }
  }

  // ---- Finished calls ----

  /** The evidence a finished call carries is recorded next, and the gate after
      that lists it. */
  predicate CallSettled(events: seq<Event>, i: nat)
    requires i < |events|
  {
    events[i].fact.ToolCallFinished? ==>
      && i + 2 < |events|
      && events[i + 1].fact == EvidenceRecorded(events[i].fact.evidence)
      && events[i + 2].fact.MergeGateUpdated?
      && events[i].fact.evidence.id in events[i + 2].fact.gate.evidenceIds
  }

  predicate CallsSettled(events: seq<Event>) {
    forall i: nat | i < |events| :: CallSettled(events, i)
  }

  /** The events a later stream adds. */
  predicate NoCallAfter(events: seq<Event>, later: seq<Event>) {
    events <= later && forall i | |events| <= i < |later| :: !later[i].fact.ToolCallFinished?
  }

  lemma OthersKeepCallsSettled(events: seq<Event>, later: seq<Event>)
    requires CallsSettled(events) && NoCallAfter(events, later)
    ensures CallsSettled(later)
  {
    forall i: nat | i < |later|
      ensures CallSettled(later, i)
    {
      if i < |events| {
        assert CallSettled(events, i);
      }
    }
  }

  lemma CallThenEvidenceSettles(turn: Turn, events: seq<Event>, call: Fact)
    requires CallsSettled(events) && call.ToolCallFinished?
    ensures CallsSettled(EmitGate(Emit(Emit(events, call), EvidenceRecorded(call.evidence)), turn, CollectingEvidence))
  {
    hide GateIds;
    var finished := Emit(events, call);
    var recorded := Emit(finished, EvidenceRecorded(call.evidence));
    var later := EmitGate(recorded, turn, CollectingEvidence);
    EvidenceIdsEmit(finished, EvidenceRecorded(call.evidence));
    forall i: nat | i < |later|
      ensures CallSettled(later, i)
    {
      if i < |events| {
        assert CallSettled(events, i);
      }
    }
  }

  lemma ToolSettles(turn: Turn, events: seq<Event>, update: Update)
    requires CallsSettled(events)
    ensures CallsSettled(AfterTool(events, turn, update))
  {
    hide CallsSettled, EmitGate, PatchEvidence, ToolEvidence;
    var patched := events;
    if update.hasPatch {
      patched := Emit(events, EvidenceRecorded(PatchEvidence(turn, update.toolCallId, |events| + 1)));
    }
    OthersKeepCallsSettled(events, patched);
    var evidence := ToolEvidence(turn, update.toolCallId, |patched| + 1);
    var success := Succeeded(update.status.GetOr("completed"));
    CallThenEvidenceSettles(turn, patched, ToolCallFinished(update.toolCallId, update.title, success, evidence));
  }

  lemma UpdateKeepsCallsSettled(turn: Turn, events: seq<Event>, update: Update)
    requires CallsSettled(events)
    ensures CallsSettled(AfterUpdate(events, turn, update))
  {
    hide CallsSettled, AfterTool, GateIds, SessionMergeGate, PatchEvidence, TurnEndEvidence, ContentEvidence;
    hide IsChunk, IsToolCall, IsToolCallUpdate, IsDiff, IsTurnEnd;
    if !IsChunk(update.kind) && !IsToolCall(update.kind) && IsToolCallUpdate(update.kind) {
      ToolSettles(turn, events, update);
    } else {
      OthersKeepCallsSettled(events, AfterUpdate(events, turn, update));
    }
  }

  /** In every stream, each finished call's evidence is recorded right after it
      and listed by the gate that follows. */
  lemma {:induction false} FinishedCallsAreGated(turn: Turn, updates: seq<Update>)
    ensures CallsSettled(Stream(turn, updates))
  {
    hide AfterUpdate;
    if updates != [] {
      var n := |updates| - 1;
      FinishedCallsAreGated(turn, updates[..n]);
      UpdateKeepsCallsSettled(turn, Stream(turn, updates[..n]), updates[n]);
    }
  }
}
