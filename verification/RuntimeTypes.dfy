/** The runtime facts the agent layer publishes, and who owns them. Wall-clock
    stamps, audit ids, previews, summaries and metadata are not part of this
    model. */
module RuntimeTypes {
  import opened Wrappers

  datatype Owner = Owner(
    workspaceId: string,
    projectId: string,
    laneId: Option<string>,
    sessionId: Option<string>,
    taskId: Option<string>,
    turnId: Option<string>)

  const NO_OWNER := Owner("", "", None, None, None, None)

  datatype Evidence = Evidence(id: string, kind: string, owner: Option<Owner>)

  datatype GateStatus = Proposed | CollectingEvidence

  /** A merge gate. `decision` cites the evidence an awaiting decision lists. */
  datatype Gate = Gate(
    gateId: string,
    taskId: string,
    status: GateStatus,
    requiredEvidence: seq<string>,
    evidenceIds: seq<string>,
    owner: Owner,
    decision: Option<seq<string>>)

  datatype Fact =
    | AssistantDelta(messageId: string, taskId: string, sessionId: string, content: string)
    | AgentMessagePart(sessionId: string, messageId: string, part: string)
    | ToolCallStarted(toolCallId: string, name: string, owner: Option<Owner>)
    | ToolCallFinished(toolCallId: string, name: string, success: bool, evidence: Evidence)
    | EvidenceRecorded(evidence: Evidence)
    | MergeGateUpdated(gate: Gate)
    | InputAccepted(sessionId: string, inputId: string)
    | SessionStarted(sessionId: string)
    | SessionEnded(sessionId: string, status: string)

  datatype Event = Event(sequence: nat, fact: Fact)
}
