/** The event stream of one ACP turn: how wire updates become numbered facts,
    evidence and merge gates. */
module EventStream {
  import opened Dedup
  import opened Wrappers
  import opened Text
  import opened RuntimeTypes

  /** Content an agent returned inline: the digest of its bytes names it. */
  datatype Content = Content(digest: string)

  datatype Part = Part(part: string, persisted: Option<Content>)

  /** A wire update, seen through the lookups the program makes in it. */
  datatype Update = Update(
    kind: Option<string>,
    text: Option<string>,
    part: Option<Part>,
    toolCallId: string,
    title: string,
    status: Option<string>,
    hasPatch: bool)

  /** What stays the same for a whole turn. */
  datatype Turn = Turn(sessionId: string, messageId: string, owner: Option<Owner>)

  predicate IsChunk(kind: Option<string>) {
    kind == Some("AgentMessageChunk") || kind == Some("agent_message_chunk")
  }

  predicate IsToolCall(kind: Option<string>) {
    kind == Some("ToolCall") || kind == Some("tool_call")
  }

  predicate IsToolCallUpdate(kind: Option<string>) {
    kind == Some("ToolCallUpdate") || kind == Some("tool_call_update")
  }

  predicate IsDiff(kind: Option<string>) {
    kind.Some? && kind.value in {
      "Diff", "diff", "Patch", "patch", "FileChange", "file_change", "fileChange",
      "file_change_patch", "file-patch", "diff-updated"}
  }

  predicate IsTurnEnd(kind: Option<string>) {
    kind == Some("TurnEnd") || kind == Some("turn_end")
  }

  // ---- Evidence and gates ----

  const PATCH_PREFIX := "acp-patch-"

  function PatchEvidence(turn: Turn, subject: string, sequence: nat): Evidence {
    Evidence(PATCH_PREFIX + subject + "-" + Decimal(sequence), "patch", turn.owner)
  }

  function ToolEvidence(turn: Turn, toolCallId: string, sequence: nat): Evidence {
    Evidence("acp-tool-" + toolCallId + "-" + Decimal(sequence), "tool_log", turn.owner)
  }

  function TurnEndEvidence(turn: Turn, sequence: nat): Evidence {
    Evidence("acp-turn-end-" + turn.sessionId + "-" + Decimal(sequence), "acp_turn_end", turn.owner)
  }

  const CONTENT_KIND := "agent-content"

  function ContentEvidence(turn: Turn, content: Content): Evidence {
    Evidence("acp-content-" + content.digest, CONTENT_KIND, turn.owner)
  }

  function RequiredEvidence(ids: seq<string>): seq<string> {
    (if exists i | 0 <= i < |ids| :: PATCH_PREFIX <= ids[i] then ["patch"] else []) + ["acp_turn_end"]
  }

  function SessionMergeGate(turn: Turn, status: GateStatus, ids: seq<string>): Gate {
    var taskId := "acp-session-" + turn.sessionId;
    Gate("gate-acp-session-" + turn.sessionId, taskId, status, RequiredEvidence(ids), ids,
         turn.owner.GetOr(NO_OWNER).(taskId := Some(taskId)),
         if status == CollectingEvidence && ids != [] then Some(ids) else None)
  }

  /** The status words of a failed tool call. */
  predicate Succeeded(status: string) {
    status != "failed" && status != "error" && status != "cancelled" && status != "canceled"
  }

  // ---- The reference: gates read off the history ----

  /** The ids of the evidence recorded so far, in order, with repeats. */
  function EvidenceIds(events: seq<Event>): seq<string> {
    if events == [] then []
    else
      var fact := events[|events| - 1].fact;
      EvidenceIds(events[..|events| - 1]) + (if fact.EvidenceRecorded? then [fact.evidence.id] else [])
  }

  /** What a gate lists: every id recorded so far, first occurrences only. */
  function GateIds(events: seq<Event>): seq<string> {
    Distinct(EvidenceIds(events))
  }

  /** Appends a fact under the next number of a stream that started at 1. */
  function Emit(events: seq<Event>, fact: Fact): seq<Event> {
    events + [Event(|events| + 1, fact)]
  }

  function EmitGate(events: seq<Event>, turn: Turn, status: GateStatus): seq<Event> {
    Emit(events, MergeGateUpdated(SessionMergeGate(turn, status, GateIds(events))))
  }

  /** The stream after one more update. */
  function AfterUpdate(events: seq<Event>, turn: Turn, update: Update): seq<Event> {
    if IsChunk(update.kind) then AfterPart(AfterText(events, turn, update.text), turn, update.part)
    else if IsToolCall(update.kind) then Emit(events, ToolCallStarted(update.toolCallId, update.title, turn.owner))
    else if IsToolCallUpdate(update.kind) then AfterTool(events, turn, update)
    else if IsDiff(update.kind) then
      if update.hasPatch then
        var evidence := PatchEvidence(turn, turn.sessionId, |events| + 1);
        EmitGate(Emit(events, EvidenceRecorded(evidence)), turn, CollectingEvidence)
      else events
    else if IsTurnEnd(update.kind) then
      var evidence := TurnEndEvidence(turn, |events| + 1);
      EmitGate(Emit(events, EvidenceRecorded(evidence)), turn, CollectingEvidence)
    else events
  }

  function AfterText(events: seq<Event>, turn: Turn, text: Option<string>): seq<Event> {
    match text
    case Some(content) =>
      Emit(events, AssistantDelta(turn.messageId, "acp-session-" + turn.sessionId, turn.sessionId, content))
    case None => events
  }

  function AfterPart(events: seq<Event>, turn: Turn, part: Option<Part>): seq<Event> {
    match part
    case None => events
    case Some(Part(body, persisted)) =>
      var recorded :=
        if persisted.Some? then Emit(events, EvidenceRecorded(ContentEvidence(turn, persisted.value))) else events;
      Emit(recorded, AgentMessagePart(turn.sessionId, turn.messageId, body))
  }

  function AfterTool(events: seq<Event>, turn: Turn, update: Update): seq<Event> {
    var patched :=
      if update.hasPatch then
        Emit(events, EvidenceRecorded(PatchEvidence(turn, update.toolCallId, |events| + 1)))
      else events;
    var evidence := ToolEvidence(turn, update.toolCallId, |patched| + 1);
    var success := Succeeded(update.status.GetOr("completed"));
    var finished := Emit(patched, ToolCallFinished(update.toolCallId, update.title, success, evidence));
    EmitGate(Emit(finished, EvidenceRecorded(evidence)), turn, CollectingEvidence)
  }

  lemma EvidenceIdsEmit(events: seq<Event>, fact: Fact)
    ensures EvidenceIds(Emit(events, fact)) ==
            if fact.EvidenceRecorded? then EvidenceIds(events) + [fact.evidence.id] else EvidenceIds(events)
    ensures GateIds(Emit(events, fact)) ==
            if fact.EvidenceRecorded? then PushUnique(GateIds(events), fact.evidence.id) else GateIds(events)
  {
    assert Emit(events, fact)[..|events|] == events;
    assert EvidenceIds(events) + [] == EvidenceIds(events);
    if fact.EvidenceRecorded? {
      var ids := EvidenceIds(events) + [fact.evidence.id];
      assert ids[..|ids| - 1] == EvidenceIds(events);
    }
  }

  // ---- The incremental stream ----

  /** The event vector, the sequence counter and the evidence-id list of one
      turn, updated in place. */
  class TurnStream {
    var events: seq<Event>
    var sequence: nat
    var gateEvidenceIds: seq<string>
    const turn: Turn

    /** The counters say what the events say. */
    ghost predicate Valid()
      reads this
    {
      && sequence == |events| + 1
      && gateEvidenceIds == GateIds(events)
    }

    /** A turn opens with its gate proposed and nothing recorded. */
    constructor (turn: Turn)
      ensures Valid() && this.turn == turn
      ensures events == EmitGate([], turn, Proposed)
    {
      this.turn := turn;
      events, sequence, gateEvidenceIds := [], 1, [];
      new;
      Push(MergeGateUpdated(SessionMergeGate(turn, Proposed, gateEvidenceIds)));
      EvidenceIdsEmit([], MergeGateUpdated(SessionMergeGate(turn, Proposed, [])));
    }

    method Push(fact: Fact)
      modifies this`events, this`sequence
      ensures events == old(events) + [Event(old(sequence), fact)]
      ensures sequence == old(sequence) + 1
    {
      events := events + [Event(sequence, fact)];
      sequence := sequence + 1;
    }

    method PushUniqueEvidenceId(id: string)
      modifies this`gateEvidenceIds
      ensures gateEvidenceIds == PushUnique(old(gateEvidenceIds), id)
    {
      var i := 0;
      while i < |gateEvidenceIds| && gateEvidenceIds[i] != id
        invariant 0 <= i <= |gateEvidenceIds| && id !in gateEvidenceIds[..i]
      {
        i := i + 1;
      }
      if i == |gateEvidenceIds| {
        assert gateEvidenceIds[..i] == gateEvidenceIds;
        gateEvidenceIds := gateEvidenceIds + [id];
      }
    }

    method Record(evidence: Evidence)
      requires Valid()
      modifies this
      ensures Valid() && events == Emit(old(events), EvidenceRecorded(evidence))
    {
      EvidenceIdsEmit(events, EvidenceRecorded(evidence));
      PushUniqueEvidenceId(evidence.id);
      Push(EvidenceRecorded(evidence));
    }

    method Publish(fact: Fact)
      requires Valid() && !fact.EvidenceRecorded?
      modifies this
      ensures Valid() && events == Emit(old(events), fact)
    {
      EvidenceIdsEmit(events, fact);
      Push(fact);
    }

    /** Turns one wire update into events. */
    method AppendUpdate(update: Update)
      requires Valid()
      modifies this
      ensures Valid()
      ensures events == AfterUpdate(old(events), turn, update)
    {
      hide GateIds, PatchEvidence, ToolEvidence, TurnEndEvidence, ContentEvidence, SessionMergeGate;
      if IsChunk(update.kind) {
        if update.text.Some? {
          Publish(AssistantDelta(turn.messageId, "acp-session-" + turn.sessionId, turn.sessionId, update.text.value));
        }
        if update.part.Some? {
          if update.part.value.persisted.Some? {
            Record(ContentEvidence(turn, update.part.value.persisted.value));
          }
          Publish(AgentMessagePart(turn.sessionId, turn.messageId, update.part.value.part));
        }
      } else if IsToolCall(update.kind) {
        Publish(ToolCallStarted(update.toolCallId, update.title, turn.owner));
      } else if IsToolCallUpdate(update.kind) {
        if update.hasPatch {
          Record(PatchEvidence(turn, update.toolCallId, sequence));
        }
        var status := update.status.GetOr("completed");
        var evidence := ToolEvidence(turn, update.toolCallId, sequence);
        Publish(ToolCallFinished(update.toolCallId, update.title, Succeeded(status), evidence));
        Record(evidence);
        Publish(MergeGateUpdated(SessionMergeGate(turn, CollectingEvidence, gateEvidenceIds)));
      } else if IsDiff(update.kind) {
        if update.hasPatch {
          Record(PatchEvidence(turn, turn.sessionId, sequence));
          Publish(MergeGateUpdated(SessionMergeGate(turn, CollectingEvidence, gateEvidenceIds)));
        }
      } else if IsTurnEnd(update.kind) {
        Record(TurnEndEvidence(turn, sequence));
        Publish(MergeGateUpdated(SessionMergeGate(turn, CollectingEvidence, gateEvidenceIds)));
      }
    }
  }

  // ---- What every stream satisfies ----

  function AfterAll(events: seq<Event>, turn: Turn, updates: seq<Update>): seq<Event> {
    if updates == [] then events
    else AfterUpdate(AfterAll(events, turn, updates[..|updates| - 1]), turn, updates[|updates| - 1])
  }

  /** The stream of a turn after any updates. */
  function Stream(turn: Turn, updates: seq<Update>): seq<Event> {
    AfterAll(EmitGate([], turn, Proposed), turn, updates)
  }

  /** An id that ends in a dash and this number. */
  predicate Numbered(id: string, n: nat) {
    var suffix := "-" + Decimal(n);
    |suffix| <= |id| && id[|id| - |suffix|..] == suffix
  }

  /** Was the evidence already attached to the tool call that just finished? */
  predicate Carried(before: seq<Event>, evidence: Evidence) {
    before != [] && var fact := before[|before| - 1].fact; fact.ToolCallFinished? && fact.evidence == evidence
  }

  /** The number the stream stood at when the evidence was made. */
  function MadeAt(before: seq<Event>, evidence: Evidence): nat {
    if Carried(before, evidence) then |before| else |before| + 1
  }

  predicate EvidenceFits(before: seq<Event>, evidence: Evidence) {
    && (evidence.kind == "patch" <==> PATCH_PREFIX <= evidence.id)
    && (evidence.kind == CONTENT_KIND <==> "acp-content-" <= evidence.id)
    && (evidence.kind != CONTENT_KIND ==> Numbered(evidence.id, MadeAt(before, evidence)))
  }

  /** If the last fact recorded such evidence, was it named for this subject? */
  predicate NamedFor(before: seq<Event>, kind: string, prefix: string, subject: string) {
    before != [] && before[|before| - 1].fact.EvidenceRecorded? && before[|before| - 1].fact.evidence.kind == kind ==>
      before[|before| - 1].fact.evidence.id == prefix + subject + "-" + Decimal(|before|)
  }

  /** The owner of a gate is the published one, with the task of the gate. */
  predicate OwnsGate(published: Option<Owner>, taskId: string, owner: Owner) {
    && owner.taskId == Some(taskId)
    && match published
       case Some(o) =>
         && owner.workspaceId == o.workspaceId && owner.projectId == o.projectId
         && owner.laneId == o.laneId && owner.sessionId == o.sessionId && owner.turnId == o.turnId
       case None =>
         && owner.workspaceId == "" && owner.projectId == ""
         && owner.laneId == None && owner.sessionId == None && owner.turnId == None
  }

  /** A gate of this turn: one record under one id, owned as published, that
      lists what was recorded before it and cites that in its decision. */
  predicate GateFits(turn: Turn, before: seq<Event>, gate: Gate) {
    && gate.gateId == "gate-acp-session-" + turn.sessionId
    && gate.taskId == "acp-session-" + turn.sessionId
    && OwnsGate(turn.owner, gate.taskId, gate.owner)
    && gate.evidenceIds == GateIds(before)
    && gate.requiredEvidence == RequiredEvidence(GateIds(before))
    && (gate.status == Proposed <==> before == [])
    && gate.decision == (if before == [] then None else Some(gate.evidenceIds))
    && (before != [] ==> before[|before| - 1].fact.EvidenceRecorded?)
  }

  /** What each fact says besides its number: the turn's own ids, the published
      owner, and evidence named for the call or the session it is about. */
  predicate FactFits(turn: Turn, before: seq<Event>, fact: Fact) {
    match fact
    case MergeGateUpdated(gate) =>
      && GateFits(turn, before, gate)
      && NamedFor(before, "patch", "acp-patch-", turn.sessionId)
      && NamedFor(before, "acp_turn_end", "acp-turn-end-", turn.sessionId)
    case EvidenceRecorded(evidence) => evidence.owner == turn.owner && EvidenceFits(before, evidence)
    case AssistantDelta(messageId, taskId, sessionId, _) =>
      messageId == turn.messageId && taskId == "acp-session-" + turn.sessionId && sessionId == turn.sessionId
    case AgentMessagePart(sessionId, messageId, _) => sessionId == turn.sessionId && messageId == turn.messageId
    case ToolCallStarted(_, _, owner) => owner == turn.owner
    case ToolCallFinished(toolCallId, _, _, evidence) =>
      && NamedFor(before, "patch", "acp-patch-", toolCallId)
      && evidence == Evidence("acp-tool-" + toolCallId + "-" + Decimal(|before| + 1), "tool_log", turn.owner)
    case _ => true
  }

  predicate StreamInv(turn: Turn, events: seq<Event>) {
    forall i | 0 <= i < |events| :: events[i].sequence == i + 1 && FactFits(turn, events[..i], events[i].fact)
  }

  /** Between updates no finished tool call waits for its evidence, and no
      evidence for what is said about it. */
  predicate Settled(events: seq<Event>) {
    events != [] ==> !events[|events| - 1].fact.ToolCallFinished? && !events[|events| - 1].fact.EvidenceRecorded?
  }

  predicate Consistent(turn: Turn, events: seq<Event>) {
    events != [] && StreamInv(turn, events) && Settled(events)
  }

  lemma EmitKeepsInv(turn: Turn, events: seq<Event>, fact: Fact)
    requires StreamInv(turn, events) && FactFits(turn, events, fact)
    ensures StreamInv(turn, Emit(events, fact))
  {
    hide FactFits;
    var after := Emit(events, fact);
    forall i | 0 <= i < |after|
      ensures after[i].sequence == i + 1 && FactFits(turn, after[..i], after[i].fact)
    {
      assert after[..i] == events[..i];
      assert i == |events| ==> events[..i] == events;
    }
  }

  lemma EmitSettles(turn: Turn, events: seq<Event>, fact: Fact)
    requires StreamInv(turn, events) && FactFits(turn, events, fact)
    requires !fact.ToolCallFinished? && !fact.EvidenceRecorded?
    ensures Consistent(turn, Emit(events, fact))
  {
    hide FactFits, StreamInv;
    EmitKeepsInv(turn, events, fact);
  }

  /** A gate after a piece of evidence lists at least that. */
  lemma CollectingGateFits(turn: Turn, before: seq<Event>, evidence: Evidence)
    ensures var events := Emit(before, EvidenceRecorded(evidence));
            GateFits(turn, events, SessionMergeGate(turn, CollectingEvidence, GateIds(events)))
  {
    hide RequiredEvidence, GateIds;
    EvidenceIdsEmit(before, EvidenceRecorded(evidence));
  }

  lemma EmitGateSettles(turn: Turn, before: seq<Event>, evidence: Evidence)
    requires var events := Emit(before, EvidenceRecorded(evidence));
             && StreamInv(turn, events)
             && NamedFor(events, "patch", "acp-patch-", turn.sessionId)
             && NamedFor(events, "acp_turn_end", "acp-turn-end-", turn.sessionId)
    ensures Consistent(turn, EmitGate(Emit(before, EvidenceRecorded(evidence)), turn, CollectingEvidence))
  {
    hide StreamInv, SessionMergeGate, GateIds, GateFits, NamedFor;
    var events := Emit(before, EvidenceRecorded(evidence));
    CollectingGateFits(turn, before, evidence);
    EmitSettles(turn, events, MergeGateUpdated(SessionMergeGate(turn, CollectingEvidence, GateIds(events))));
  }

  // ---- The evidence each branch makes ----

  lemma NumberedIds(prefix: string, subject: string, n: nat)
    ensures Numbered(prefix + subject + "-" + Decimal(n), n)
  {
    var suffix := "-" + Decimal(n);
    assert prefix + subject + "-" + Decimal(n) == prefix + subject + suffix;
  }

  lemma PatchFits(before: seq<Event>, turn: Turn, subject: string, n: nat)
    requires n == |before| + 1 && Settled(before)
    ensures EvidenceFits(before, PatchEvidence(turn, subject, n))
  {
    NumberedIds(PATCH_PREFIX, subject, n);
    var id := PatchEvidence(turn, subject, n).id;
    assert id == PATCH_PREFIX + (subject + "-" + Decimal(n));
    assert id[4] == 'p';
  }

  lemma ToolFits(before: seq<Event>, turn: Turn, toolCallId: string, n: nat)
    requires n == |before| && Carried(before, ToolEvidence(turn, toolCallId, n))
    ensures EvidenceFits(before, ToolEvidence(turn, toolCallId, n))
  {
    NumberedIds("acp-tool-", toolCallId, n);
    var id := ToolEvidence(turn, toolCallId, n).id;
    assert id == "acp-tool-" + (toolCallId + "-" + Decimal(n));
    assert id[4] == 't';
  }

  lemma TurnEndFits(before: seq<Event>, turn: Turn, n: nat)
    requires n == |before| + 1 && Settled(before)
    ensures EvidenceFits(before, TurnEndEvidence(turn, n))
  {
    NumberedIds("acp-turn-end-", turn.sessionId, n);
    var id := TurnEndEvidence(turn, n).id;
    assert id == "acp-turn-end-" + (turn.sessionId + "-" + Decimal(n));
    assert id[4] == 't';
  }

  lemma ContentFits(before: seq<Event>, turn: Turn, content: Content)
    ensures EvidenceFits(before, ContentEvidence(turn, content))
  {
    var id := ContentEvidence(turn, content).id;
    assert id == "acp-content-" + content.digest;
    assert id[4] == 'c';
  }

  // ---- Every update keeps the stream consistent ----

  lemma TextKeepsStream(turn: Turn, events: seq<Event>, text: Option<string>)
    requires Consistent(turn, events)
    ensures Consistent(turn, AfterText(events, turn, text))
  {
    hide StreamInv;
    if text.Some? {
      EmitSettles(turn, events,
                  AssistantDelta(turn.messageId, "acp-session-" + turn.sessionId, turn.sessionId, text.value));
    }
  }

  lemma PartKeepsStream(turn: Turn, events: seq<Event>, part: Option<Part>)
    requires Consistent(turn, events)
    ensures Consistent(turn, AfterPart(events, turn, part))
  {
    hide StreamInv, EvidenceFits;
    if part.Some? {
      var recorded := events;
      if part.value.persisted.Some? {
        var evidence := ContentEvidence(turn, part.value.persisted.value);
        ContentFits(events, turn, part.value.persisted.value);
        EmitKeepsInv(turn, events, EvidenceRecorded(evidence));
        recorded := Emit(events, EvidenceRecorded(evidence));
      }
      EmitSettles(turn, recorded, AgentMessagePart(turn.sessionId, turn.messageId, part.value.part));
    }
  }

  lemma RecordPatch(turn: Turn, events: seq<Event>, subject: string)
    requires Consistent(turn, events)
    ensures StreamInv(turn, Emit(events, EvidenceRecorded(PatchEvidence(turn, subject, |events| + 1))))
  {
    hide StreamInv, EvidenceFits;
    PatchFits(events, turn, subject, |events| + 1);
    EmitKeepsInv(turn, events, EvidenceRecorded(PatchEvidence(turn, subject, |events| + 1)));
  }

  lemma PatchIsNamed(turn: Turn, events: seq<Event>, subject: string)
    ensures var after := Emit(events, EvidenceRecorded(PatchEvidence(turn, subject, |events| + 1)));
            && NamedFor(after, "patch", "acp-patch-", subject)
            && NamedFor(after, "acp_turn_end", "acp-turn-end-", subject)
  {
    assert "patch"[0] != "acp_turn_end"[0];
  }

  /** The facts of a tool update: the call with the patch it may have made. */
  lemma PatchedCall(turn: Turn, events: seq<Event>, update: Update) returns (patched: seq<Event>)
    requires Consistent(turn, events)
    ensures patched == (if update.hasPatch then
                          Emit(events, EvidenceRecorded(PatchEvidence(turn, update.toolCallId, |events| + 1)))
                        else events)
    ensures StreamInv(turn, patched) && NamedFor(patched, "patch", "acp-patch-", update.toolCallId)
  {
    hide StreamInv, PatchEvidence;
    patched := events;
    if update.hasPatch {
      RecordPatch(turn, events, update.toolCallId);
      PatchIsNamed(turn, events, update.toolCallId);
      patched := Emit(events, EvidenceRecorded(PatchEvidence(turn, update.toolCallId, |events| + 1)));
    }
  }

  lemma ToolKeepsStream(turn: Turn, events: seq<Event>, update: Update)
    requires Consistent(turn, events)
    ensures Consistent(turn, AfterTool(events, turn, update))
  {
    hide StreamInv, EvidenceFits, EmitGate, NamedFor;
    var patched := PatchedCall(turn, events, update);
    var evidence := ToolEvidence(turn, update.toolCallId, |patched| + 1);
    var success := Succeeded(update.status.GetOr("completed"));
    var fact := ToolCallFinished(update.toolCallId, update.title, success, evidence);
    EmitKeepsInv(turn, patched, fact);
    var finished := Emit(patched, fact);
    ToolFits(finished, turn, update.toolCallId, |finished|);
    EmitKeepsInv(turn, finished, EvidenceRecorded(evidence));
    ToolIsNotNamed(finished, evidence, turn.sessionId);
    EmitGateSettles(turn, finished, evidence);
  }

  lemma ToolIsNotNamed(events: seq<Event>, evidence: Evidence, subject: string)
    requires evidence.kind == "tool_log"
    ensures var after := Emit(events, EvidenceRecorded(evidence));
            && NamedFor(after, "patch", "acp-patch-", subject)
            && NamedFor(after, "acp_turn_end", "acp-turn-end-", subject)
  {
    assert "tool_log"[0] != "patch"[0] && "tool_log"[0] != "acp_turn_end"[0];
  }

  lemma DiffKeepsStream(turn: Turn, events: seq<Event>)
    requires Consistent(turn, events)
    ensures Consistent(turn,
              EmitGate(Emit(events, EvidenceRecorded(PatchEvidence(turn, turn.sessionId, |events| + 1))),
                       turn, CollectingEvidence))
  {
    hide StreamInv, EmitGate, NamedFor, PatchEvidence;
    RecordPatch(turn, events, turn.sessionId);
    PatchIsNamed(turn, events, turn.sessionId);
    EmitGateSettles(turn, events, PatchEvidence(turn, turn.sessionId, |events| + 1));
  }

  lemma TurnEndIsNamed(turn: Turn, events: seq<Event>)
    ensures var after := Emit(events, EvidenceRecorded(TurnEndEvidence(turn, |events| + 1)));
            && NamedFor(after, "patch", "acp-patch-", turn.sessionId)
            && NamedFor(after, "acp_turn_end", "acp-turn-end-", turn.sessionId)
  {
    assert "patch"[0] != "acp_turn_end"[0];
  }

  lemma TurnEndKeepsStream(turn: Turn, events: seq<Event>)
    requires Consistent(turn, events)
    ensures Consistent(turn,
              EmitGate(Emit(events, EvidenceRecorded(TurnEndEvidence(turn, |events| + 1))),
                       turn, CollectingEvidence))
  {
    hide StreamInv, EvidenceFits, EmitGate, NamedFor;
    TurnEndFits(events, turn, |events| + 1);
    EmitKeepsInv(turn, events, EvidenceRecorded(TurnEndEvidence(turn, |events| + 1)));
    TurnEndIsNamed(turn, events);
    EmitGateSettles(turn, events, TurnEndEvidence(turn, |events| + 1));
  }

  lemma UpdateKeepsStream(turn: Turn, events: seq<Event>, update: Update)
    requires Consistent(turn, events)
    ensures Consistent(turn, AfterUpdate(events, turn, update))
  {
    hide Consistent, AfterText, AfterPart, AfterTool, EmitGate, PatchEvidence, TurnEndEvidence, IsDiff;
    if IsChunk(update.kind) {
      TextKeepsStream(turn, events, update.text);
      PartKeepsStream(turn, AfterText(events, turn, update.text), update.part);
    } else if IsToolCall(update.kind) {
      ToolCallKeepsStream(turn, events, update);
    } else if IsToolCallUpdate(update.kind) {
      ToolKeepsStream(turn, events, update);
    } else if IsDiff(update.kind) {
      DiffKeepsStream(turn, events);
    } else if IsTurnEnd(update.kind) {
      TurnEndKeepsStream(turn, events);
    }
  }

  lemma ToolCallKeepsStream(turn: Turn, events: seq<Event>, update: Update)
    requires Consistent(turn, events)
    ensures Consistent(turn, Emit(events, ToolCallStarted(update.toolCallId, update.title, turn.owner)))
  {
    hide StreamInv;
    EmitSettles(turn, events, ToolCallStarted(update.toolCallId, update.title, turn.owner));
  }

  /** Whatever the agent sends, the stream is numbered without gaps and every
      gate and evidence in it fits what came before. */
  lemma {:induction false} StreamIsConsistent(turn: Turn, updates: seq<Update>)
    ensures Consistent(turn, Stream(turn, updates))
  {
    hide AfterUpdate, Consistent;
    if updates == [] {
      OpeningIsConsistent(turn);
    } else {
      StreamIsConsistent(turn, updates[..|updates| - 1]);
      UpdateKeepsStream(turn, Stream(turn, updates[..|updates| - 1]), updates[|updates| - 1]);
    }
  }

  lemma OpeningIsConsistent(turn: Turn)
    ensures Consistent(turn, EmitGate([], turn, Proposed))
  {
    EmitSettles(turn, [], MergeGateUpdated(SessionMergeGate(turn, Proposed, GateIds([]))));
  }
}
