/** What a client may rely on in the event stream of one turn, whatever the
    agent sent. */
module StreamFacts {
  import opened Dedup
  import opened Wrappers
  import opened Text
  import opened RuntimeTypes
  import opened EventStream

  predicate Records(event: Event, id: string) {
    event.fact.EvidenceRecorded? && event.fact.evidence.id == id
  }

  predicate RecordsPatch(event: Event) {
    event.fact.EvidenceRecorded? && event.fact.evidence.kind == "patch"
  }

  lemma {:induction false} IdsAreRecorded(events: seq<Event>, id: string)
    ensures id in EvidenceIds(events) <==> exists k | 0 <= k < |events| :: Records(events[k], id)
  {
    if events != [] {
      var n := |events| - 1;
      assert forall k | 0 <= k < n :: events[..n][k] == events[k];
      IdsAreRecorded(events[..n], id);
      assert Records(events[n], id) ==> id in EvidenceIds(events);
    }
  }

  lemma {:induction false} IdsGrow(events: seq<Event>, more: seq<Event>)
    ensures exists ids :: EvidenceIds(events + more) == EvidenceIds(events) + ids
  {
    if more == [] {
      assert events + more == events;
      assert EvidenceIds(events) == EvidenceIds(events) + [];
    } else {
      var n := |more| - 1;
      IdsGrow(events, more[..n]);
      var ids :| EvidenceIds(events + more[..n]) == EvidenceIds(events) + ids;
      assert (events + more)[..|events + more| - 1] == events + more[..n];
      var last := if more[n].fact.EvidenceRecorded? then [more[n].fact.evidence.id] else [];
      assert EvidenceIds(events + more) == EvidenceIds(events) + (ids + last);
    }
  }

  lemma GateIdsGrow(events: seq<Event>, i: nat, j: nat)
    requires i <= j <= |events|
    ensures GateIds(events[..i]) <= GateIds(events[..j])
  {
    assert events[..j] == events[..i] + events[i..j];
    IdsGrow(events[..i], events[i..j]);
    var ids :| EvidenceIds(events[..j]) == EvidenceIds(events[..i]) + ids;
    DistinctGrows(EvidenceIds(events[..i]), ids);
  }

  /** Events are numbered 1, 2, 3, ... without a gap. */
  lemma SequenceIsConsecutive(turn: Turn, updates: seq<Update>, i: nat)
    requires i < |Stream(turn, updates)|
    ensures Stream(turn, updates)[i].sequence == i + 1
  {
    StreamIsConsistent(turn, updates);
  }

  /** A gate lists an id exactly when evidence of that id was recorded before
      it, each id once, in the order the ids first appeared. */
  lemma GateListsTheRecord(turn: Turn, updates: seq<Update>, i: nat)
    requires i < |Stream(turn, updates)| && Stream(turn, updates)[i].fact.MergeGateUpdated?
    ensures var events := Stream(turn, updates);
            var listed := events[i].fact.gate.evidenceIds;
            var recorded := EvidenceIds(events[..i]);
            && (forall id :: id in listed <==> exists k | 0 <= k < i :: Records(events[k], id))
            && NoRepeats(listed)
            && (forall x | x in listed :: x in recorded)
            && (forall a, b | 0 <= a < b < |listed| :: FirstAt(recorded, listed[a]) < FirstAt(recorded, listed[b]))
  {
    hide Stream;
    var events := Stream(turn, updates);
    StreamIsConsistent(turn, updates);
    GateContents(turn, events, i);
    DistinctIsFirstOccurrences(EvidenceIds(events[..i]));
    forall id
      ensures id in events[i].fact.gate.evidenceIds <==> exists k | 0 <= k < i :: Records(events[k], id)
    {
      IdsAreRecorded(events[..i], id);
      assert forall k | 0 <= k < i :: events[..i][k] == events[k];
    }
  }

  lemma GateContents(turn: Turn, events: seq<Event>, i: nat)
    requires StreamInv(turn, events) && i < |events| && events[i].fact.MergeGateUpdated?
    ensures GateFits(turn, events[..i], events[i].fact.gate)
  {
    assert FactFits(turn, events[..i], events[i].fact);
  }

  /** Whose gate it is: every gate of a turn, the opening one included, belongs
      to the owner the session was published under, with the task of the gate;
      an unpublished session owns nothing but the task. The opening gate is
      proposed and undecided; every later one collects, follows the evidence it
      was updated for, and cites exactly the ids it lists. */
  lemma GateIsTheTurns(turn: Turn, updates: seq<Update>, i: nat)
    requires i < |Stream(turn, updates)| && Stream(turn, updates)[i].fact.MergeGateUpdated?
    ensures var gate := Stream(turn, updates)[i].fact.gate;
            && gate.gateId == "gate-acp-session-" + turn.sessionId
            && gate.taskId == "acp-session-" + turn.sessionId
            && gate.owner.taskId == Some("acp-session-" + turn.sessionId)
            && (match turn.owner
                case Some(o) => gate.owner == o.(taskId := Some(gate.taskId))
                case None => gate.owner == Owner("", "", None, None, Some(gate.taskId), None))
            && (if i == 0 then gate.status == Proposed && gate.decision == None && gate.evidenceIds == []
                else
                  && gate.status == CollectingEvidence && gate.decision == Some(gate.evidenceIds)
                  && gate.evidenceIds != [] && Stream(turn, updates)[i - 1].fact.EvidenceRecorded?)
  {
    hide Stream, GateIds;
    var events := Stream(turn, updates);
    StreamIsConsistent(turn, updates);
    GateContents(turn, events, i);
    if i == 0 {
      assert events[..0] == [];
      NothingListed();
    } else {
      LastEvidenceIsListed(events, i);
    }
  }

  lemma NothingListed()
    ensures GateIds([]) == []
  {
  }

  lemma LastEvidenceIsListed(events: seq<Event>, i: nat)
    requires 0 < i <= |events| && events[i - 1].fact.EvidenceRecorded?
    ensures events[i - 1].fact.evidence.id in GateIds(events[..i])
  {
    var id := events[i - 1].fact.evidence.id;
    assert Records(events[..i][i - 1], id);
    IdsAreRecorded(events[..i], id);
    DistinctIsFirstOccurrences(EvidenceIds(events[..i]));
  }

  /** Every other fact of a turn is as much its own: one message, its session
      and task, and the published owner. */
  lemma FactsAreTheTurns(turn: Turn, updates: seq<Update>, i: nat)
    requires i < |Stream(turn, updates)|
    ensures match Stream(turn, updates)[i].fact
            case AssistantDelta(messageId, taskId, sessionId, _) =>
              && messageId == turn.messageId && sessionId == turn.sessionId
              && taskId == "acp-session-" + turn.sessionId
            case AgentMessagePart(sessionId, messageId, _) =>
              messageId == turn.messageId && sessionId == turn.sessionId
            case ToolCallStarted(_, _, owner) => owner == turn.owner
            case ToolCallFinished(_, _, _, evidence) => evidence.owner == turn.owner && evidence.kind == "tool_log"
            case EvidenceRecorded(evidence) => evidence.owner == turn.owner
            case _ => true
  {
    hide Stream;
    StreamIsConsistent(turn, updates);
    assert FactFits(turn, Stream(turn, updates)[..i], Stream(turn, updates)[i].fact);
  }

  /** Evidence is named for what it is about: the call it belongs to, or the
      session, and the number at which it was made. */
  lemma EvidenceIsNamed(turn: Turn, updates: seq<Update>, i: nat)
    requires i < |Stream(turn, updates)|
    ensures var events := Stream(turn, updates);
            match events[i].fact
            case ToolCallFinished(call, _, _, evidence) =>
              && evidence.id == "acp-tool-" + call + "-" + Decimal(i + 1)
              && (i > 0 && RecordsPatch(events[i - 1]) ==>
                  events[i - 1].fact.evidence.id == "acp-patch-" + call + "-" + Decimal(i))
            case MergeGateUpdated(_) =>
              && (i > 0 && RecordsPatch(events[i - 1]) ==>
                  events[i - 1].fact.evidence.id == "acp-patch-" + turn.sessionId + "-" + Decimal(i))
              && (i > 0 && RecordsEnd(events[i - 1]) ==>
                  events[i - 1].fact.evidence.id == "acp-turn-end-" + turn.sessionId + "-" + Decimal(i))
            case _ => true
  {
    hide Stream, GateFits, EvidenceFits;
    StreamIsConsistent(turn, updates);
    assert FactFits(turn, Stream(turn, updates)[..i], Stream(turn, updates)[i].fact);
  }

  predicate RecordsEnd(event: Event) {
    event.fact.EvidenceRecorded? && event.fact.evidence.kind == "acp_turn_end"
  }

  /** A gate asks for a patch exactly when one was recorded before it, and
      always for the end of the turn. */
  lemma GateRequiresPatch(turn: Turn, updates: seq<Update>, i: nat)
    requires i < |Stream(turn, updates)| && Stream(turn, updates)[i].fact.MergeGateUpdated?
    ensures var events := Stream(turn, updates);
            var required := events[i].fact.gate.requiredEvidence;
            if exists k | 0 <= k < i :: RecordsPatch(events[k]) then required == ["patch", "acp_turn_end"]
            else required == ["acp_turn_end"]
  {
    hide Stream, GateIds;
    var events := Stream(turn, updates);
    StreamIsConsistent(turn, updates);
    GateContents(turn, events, i);
    var ids := GateIds(events[..i]);
    RequiredPatch(ids);
    if k :| 0 <= k < i && RecordsPatch(events[k]) {
      PatchIdListed(turn, events, i, k);
    }
    if exists x | x in ids :: PATCH_PREFIX <= x {
      var x :| x in ids && PATCH_PREFIX <= x;
      PatchIdMade(turn, events, i, x);
    }
  }

  lemma RequiredPatch(ids: seq<string>)
    ensures RequiredEvidence(ids) ==
            if exists x | x in ids :: PATCH_PREFIX <= x then ["patch", "acp_turn_end"] else ["acp_turn_end"]
  {
    if i :| 0 <= i < |ids| && PATCH_PREFIX <= ids[i] {
      assert ids[i] in ids;
    }
    if x :| x in ids && PATCH_PREFIX <= x {
      var i :| 0 <= i < |ids| && ids[i] == x;
    }
  }

  lemma PatchIdListed(turn: Turn, events: seq<Event>, i: nat, k: nat)
    requires StreamInv(turn, events) && k < i <= |events| && RecordsPatch(events[k])
    ensures exists x | x in GateIds(events[..i]) :: PATCH_PREFIX <= x
  {
    var id := events[k].fact.evidence.id;
    assert FactFits(turn, events[..k], events[k].fact);
    assert Records(events[..i][k], id);
    IdsAreRecorded(events[..i], id);
    DistinctIsFirstOccurrences(EvidenceIds(events[..i]));
    assert id in GateIds(events[..i]);
  }

  lemma PatchIdMade(turn: Turn, events: seq<Event>, i: nat, id: string)
    requires StreamInv(turn, events) && i <= |events| && id in GateIds(events[..i]) && PATCH_PREFIX <= id
    ensures exists k | 0 <= k < i :: RecordsPatch(events[k])
  {
    DistinctIsFirstOccurrences(EvidenceIds(events[..i]));
    IdsAreRecorded(events[..i], id);
    var k :| 0 <= k < i && Records(events[..i][k], id);
    assert FactFits(turn, events[..k], events[k].fact);
    assert RecordsPatch(events[k]);
  }

  /** Gates only grow: an earlier gate's list opens every later one, and both
      are the same gate. */
  lemma GatesGrow(turn: Turn, updates: seq<Update>, i: nat, j: nat)
    requires i <= j < |Stream(turn, updates)|
    requires Stream(turn, updates)[i].fact.MergeGateUpdated? && Stream(turn, updates)[j].fact.MergeGateUpdated?
    ensures var events := Stream(turn, updates);
            && events[i].fact.gate.gateId == events[j].fact.gate.gateId
            && events[i].fact.gate.evidenceIds <= events[j].fact.gate.evidenceIds
  {
    hide Stream, StreamInv;
    var events := Stream(turn, updates);
    StreamIsConsistent(turn, updates);
    GateContents(turn, events, i);
    GateContents(turn, events, j);
    GateIdsGrow(events, i, j);
  }

  // ---- Evidence ids ----

  function AfterLastDash(s: string): string {
    if s == [] || s[|s| - 1] == '-' then "" else AfterLastDash(s[..|s| - 1]) + [s[|s| - 1]]
  }

  lemma {:induction false} DigitsAfterDash(head: string, digits: string)
    requires AllDigits(digits)
    ensures AfterLastDash(head + "-" + digits) == digits
  {
    if digits == [] {
      assert head + "-" + digits == head + "-";
    } else {
      var n := |digits| - 1;
      DigitsAfterDash(head, digits[..n]);
      var whole := head + "-" + digits;
      assert whole[..|whole| - 1] == head + "-" + digits[..n];
    }
  }

  lemma NumberOf(id: string, n: nat)
    requires Numbered(id, n)
    ensures AfterLastDash(id) == Decimal(n)
  {
    var at := |id| - |"-" + Decimal(n)|;
    assert id == id[..at] + "-" + Decimal(n);
    DigitsAfterDash(id[..at], Decimal(n));
  }

  /** No id ends in two numbers: the digits after its last dash are one. */
  lemma NumberedOnce(id: string, m: nat, n: nat)
    requires Numbered(id, m) && Numbered(id, n)
    ensures m == n
  {
    NumberOf(id, m);
    NumberOf(id, n);
    DecimalRoundTrip(m);
    DecimalRoundTrip(n);
  }

  predicate IsEvidence(event: Event) {
    event.fact.EvidenceRecorded?
  }

  /** Evidence that is not named by its content never shares an id, whatever
      tool-call and session ids the agent chose. */
  lemma EvidenceIdsDiffer(turn: Turn, updates: seq<Update>, i: nat, j: nat)
    requires i < |Stream(turn, updates)| && j < |Stream(turn, updates)| && i != j
    requires IsEvidence(Stream(turn, updates)[i]) && IsEvidence(Stream(turn, updates)[j])
    requires Stream(turn, updates)[i].fact.evidence.kind != CONTENT_KIND
    ensures Stream(turn, updates)[i].fact.evidence.id != Stream(turn, updates)[j].fact.evidence.id
  {
    hide Stream, EvidenceFits, StreamInv;
    var events := Stream(turn, updates);
    StreamIsConsistent(turn, updates);
    EvidenceAt(turn, events, i);
    EvidenceAt(turn, events, j);
    if i < j {
      IdsDiffer(events, i, j);
    } else {
      IdsDiffer(events, j, i);
    }
  }

  lemma EvidenceAt(turn: Turn, events: seq<Event>, i: nat)
    requires StreamInv(turn, events) && i < |events| && IsEvidence(events[i])
    ensures EvidenceFits(events[..i], events[i].fact.evidence)
  {
    assert FactFits(turn, events[..i], events[i].fact);
  }

  lemma IdsDiffer(events: seq<Event>, i: nat, j: nat)
    requires i < j < |events| && IsEvidence(events[i]) && IsEvidence(events[j])
    requires EvidenceFits(events[..i], events[i].fact.evidence) && EvidenceFits(events[..j], events[j].fact.evidence)
    requires !(events[i].fact.evidence.kind == CONTENT_KIND && events[j].fact.evidence.kind == CONTENT_KIND)
    ensures events[i].fact.evidence.id != events[j].fact.evidence.id
  {
    hide Numbered;
    var a, b := events[i].fact.evidence, events[j].fact.evidence;
    if a.id == b.id {
      if a.kind != CONTENT_KIND && b.kind != CONTENT_KIND {
        assert events[..j][j - 1] == events[j - 1];
        NumberedOnce(a.id, MadeAt(events[..i], a), MadeAt(events[..j], b));
      }
    }
  }

  // ---- The reply ----

  function Delta(event: Event): string {
    if event.fact.AssistantDelta? then event.fact.content else ""
  }

  /** The reply a client rebuilds from the stream. */
  function Reply(events: seq<Event>): string {
    if events == [] then "" else Reply(events[..|events| - 1]) + Delta(events[|events| - 1])
  }

  function Said(update: Update): string {
    if IsChunk(update.kind) then update.text.GetOr("") else ""
  }

  function SaidInAll(updates: seq<Update>): string {
    if updates == [] then "" else SaidInAll(updates[..|updates| - 1]) + Said(updates[|updates| - 1])
  }

  lemma ReplyEmit(events: seq<Event>, fact: Fact)
    ensures Reply(Emit(events, fact)) == Reply(events) + if fact.AssistantDelta? then fact.content else ""
  {
    assert Emit(events, fact)[..|events|] == events;
  }

  lemma ReplyIgnores(events: seq<Event>, fact: Fact)
    requires !fact.AssistantDelta?
    ensures Reply(Emit(events, fact)) == Reply(events)
  {
    ReplyEmit(events, fact);
    assert Reply(events) + "" == Reply(events);
  }

  lemma ReplyAfterUpdate(turn: Turn, events: seq<Event>, update: Update)
    ensures Reply(AfterUpdate(events, turn, update)) == Reply(events) + Said(update)
  {
    hide Emit, Reply, GateIds, SessionMergeGate, PatchEvidence, ToolEvidence, TurnEndEvidence, ContentEvidence, IsDiff;
    assert Reply(events) + "" == Reply(events);
    forall before: seq<Event>, fact: Fact | !fact.AssistantDelta?
      ensures Reply(Emit(before, fact)) == Reply(before)
    {
      ReplyIgnores(before, fact);
    }
    if IsChunk(update.kind) && update.text.Some? {
      ReplyEmit(events,
                AssistantDelta(turn.messageId, "acp-session-" + turn.sessionId, turn.sessionId, update.text.value));
    }
  }

  /** Joining the deltas of the stream gives back every chunk the agent sent,
      in order and once. */
  lemma {:induction false} ReplyIsWhatWasSaid(turn: Turn, updates: seq<Update>)
    ensures Reply(Stream(turn, updates)) == SaidInAll(updates)
  {
    hide AfterUpdate;
    if updates == [] {
      ReplyIgnores([], MergeGateUpdated(SessionMergeGate(turn, Proposed, GateIds([]))));
    } else {
      var n := |updates| - 1;
      ReplyIsWhatWasSaid(turn, updates[..n]);
      ReplyAfterUpdate(turn, Stream(turn, updates[..n]), updates[n]);
    }
  }
}
