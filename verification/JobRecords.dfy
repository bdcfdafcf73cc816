/** The durable job record and its one-line form. */
module JobRecords {
  import opened Wrappers
  import opened Text
  import opened JobCodec
  import opened RuntimeTypes

  const U32_MAX: int := 0xFFFF_FFFF
  const U128_MAX: int := 0xFFFF_FFFF_FFFF_FFFF_FFFF_FFFF_FFFF_FFFF

  type u32 = n: int | 0 <= n <= U32_MAX
  type u128 = n: int | 0 <= n <= U128_MAX

  datatype AgentMetadata = AgentMetadata(agentId: string, model: Option<string>, owner: Owner)

  datatype JobRecord = JobRecord(
    id: string,
    kind: string,
    status: string,
    pid: Option<u32>,
    command: string,
    task: string,
    logPath: string,
    resultPath: string,
    baselinePath: string,
    updatedAt: u128,
    agent: Option<AgentMetadata>)

  // ---- Writing ----

  const KEYS: seq<string> := [
    "ts", "event", "id", "kind", "status", "pid", "command", "task", "log", "result", "baseline",
    "agent_id", "model", "owner_workspace_id", "owner_project_id", "owner_lane_id",
    "owner_session_id", "owner_task_id", "owner_turn_id"]

  const NO_AGENT := AgentMetadata("", None, NO_OWNER)

  function Values(event: string, record: JobRecord): (raws: seq<Raw>)
    ensures |raws| == |KEYS|
  {
    var agent := record.agent.GetOr(NO_AGENT);
    [ Digits(record.updatedAt),
      Quoted(event),
      Quoted(record.id),
      Quoted(record.kind),
      Quoted(record.status),
      if record.pid.Some? then Digits(record.pid.value) else Null,
      Quoted(record.command),
      Quoted(record.task),
      Quoted(record.logPath),
      Quoted(record.resultPath),
      Quoted(record.baselinePath),
      Quoted(agent.agentId),
      Quoted(agent.model.GetOr("")),
      Quoted(agent.owner.workspaceId),
      Quoted(agent.owner.projectId),
      Quoted(agent.owner.laneId.GetOr("")),
      Quoted(agent.owner.sessionId.GetOr("")),
      Quoted(agent.owner.taskId.GetOr("")),
      Quoted(agent.owner.turnId.GetOr(""))]
  }

  function Fields(raws: seq<Raw>): seq<Field>
    requires |raws| == |KEYS|
  {
    seq(|KEYS|, i requires 0 <= i < |KEYS| => Field(KEYS[i], raws[i]))
  }

  function RecordLine(event: string, record: JobRecord): string {
    Render(Fields(Values(event, record)))
  }

  // ---- Reading ----

  function ParseUnsigned(digits: string, max: nat): Option<nat> {
    if digits != [] && AllDigits(digits) && DecimalValue(digits) <= max then Some(DecimalValue(digits)) else None
  }

  function NonEmpty(field: Option<string>): Option<string> {
    if field.Some? && field.value == "" then None else field
  }

  /** Reads a record back. `fallbackBaseline` is the path arithmetic that
      stands in for a missing baseline field in older logs. */
  function ParseRecord(line: string, fallbackBaseline: (string, string) -> string): Option<JobRecord> {
    match (JsonStringField(line, "id"), JsonStringField(line, "log"), JsonStringField(line, "result"))
    case (Some(id), Some(logPath), Some(resultPath)) =>
      (match (JsonStringField(line, "kind"), JsonStringField(line, "status"), JsonNumberField(line, "ts"))
       case (Some(kind), Some(status), Some(ts)) =>
         if ParseUnsigned(ts, U128_MAX).None? then None
         else
           Some(JobRecord(
                  id, kind, status,
                  match JsonNumberField(line, "pid") case Some(pid) => ParseUnsigned(pid, U32_MAX) case None => None,
                  JsonStringField(line, "command").GetOr(""),
                  JsonStringField(line, "task").GetOr(""),
                  logPath, resultPath,
                  JsonStringField(line, "baseline").GetOr(fallbackBaseline(logPath, id)),
                  ParseUnsigned(ts, U128_MAX).value,
                  ParseAgent(line)))
       case _ => None)
    case _ => None
  }

  function ParseAgent(line: string): Option<AgentMetadata> {
    match NonEmpty(JsonStringField(line, "agent_id"))
    case None => None
    case Some(agentId) =>
      Some(AgentMetadata(
             agentId,
             NonEmpty(JsonStringField(line, "model")),
             Owner(
               NonEmpty(JsonStringField(line, "owner_workspace_id")).GetOr(""),
               NonEmpty(JsonStringField(line, "owner_project_id")).GetOr(""),
               NonEmpty(JsonStringField(line, "owner_lane_id")),
               NonEmpty(JsonStringField(line, "owner_session_id")),
               NonEmpty(JsonStringField(line, "owner_task_id")),
               NonEmpty(JsonStringField(line, "owner_turn_id")))))
  }

  // ---- What a written record reads back as ----

  function SeenOptional(value: Option<string>): Option<string> {
    NonEmpty(Some(Recovered(value.GetOr(""))))
  }

  function SeenAgent(agent: Option<AgentMetadata>): Option<AgentMetadata> {
    if agent.None? || agent.value.agentId == "" then None
    else
      var AgentMetadata(agentId, model, owner) := agent.value;
      Some(AgentMetadata(
             Recovered(agentId),
             SeenOptional(model),
             Owner(Recovered(owner.workspaceId), Recovered(owner.projectId), SeenOptional(owner.laneId),
                   SeenOptional(owner.sessionId), SeenOptional(owner.taskId), SeenOptional(owner.turnId))))
  }

  function Seen(record: JobRecord): JobRecord {
    record.(id := Recovered(record.id),
            kind := Recovered(record.kind),
            status := Recovered(record.status),
            command := Recovered(record.command),
            task := Recovered(record.task),
            logPath := Recovered(record.logPath),
            resultPath := Recovered(record.resultPath),
            baselinePath := Recovered(record.baselinePath),
            agent := SeenAgent(record.agent))
  }

  lemma KeysAreGood()
    ensures forall i | 0 <= i < |KEYS| :: GoodKey(KEYS[i])
  {
  }

  lemma KeysAreDistinct()
    ensures forall i, j | 0 <= i < j < |KEYS| :: KEYS[i] != KEYS[j]
  {
  }

  /** Every column of a line reads back by its key, whatever the others hold. */
  lemma ColumnsReadBack(raws: seq<Raw>, line: string)
    requires |raws| == |KEYS| && line == Render(Fields(raws))
    ensures forall i | 0 <= i < |KEYS| ::
              if raws[i].Quoted? then JsonStringField(line, KEYS[i]) == Some(Recovered(raws[i].value))
              else JsonNumberField(line, KEYS[i]) == if raws[i].Digits? then Some(Decimal(raws[i].n)) else None
  {
    KeysAreGood();
    KeysAreDistinct();
    forall i | 0 <= i < |KEYS|
      ensures if raws[i].Quoted? then JsonStringField(line, KEYS[i]) == Some(Recovered(raws[i].value))
              else JsonNumberField(line, KEYS[i]) == if raws[i].Digits? then Some(Decimal(raws[i].n)) else None
    {
      if raws[i].Quoted? {
        StringFieldRead(Fields(raws), KEYS[i], i);
      } else {
        NumberFieldRead(Fields(raws), KEYS[i], i);
      }
    }
  }

  lemma ParseDecimal(n: nat, max: nat)
    requires n <= max
    ensures ParseUnsigned(Decimal(n), max) == Some(n)
  {
    DecimalRoundTrip(n);
  }

  lemma WrittenAgent(event: string, record: JobRecord)
    ensures ParseAgent(RecordLine(event, record)) == SeenAgent(record.agent)
  {
    hide JsonStringField, JsonNumberField;
    var raws := Values(event, record);
    var line := RecordLine(event, record);
    ColumnsReadBack(raws, line);
    assert KEYS[11] == "agent_id" && KEYS[12] == "model" && KEYS[13] == "owner_workspace_id"
        && KEYS[14] == "owner_project_id";
    assert KEYS[15] == "owner_lane_id" && KEYS[16] == "owner_session_id" && KEYS[17] == "owner_task_id"
        && KEYS[18] == "owner_turn_id";
    RecoveredShape(record.agent.GetOr(NO_AGENT).agentId);
  }

  lemma WrittenHeader(event: string, record: JobRecord)
    ensures var line := RecordLine(event, record);
            && JsonStringField(line, "id") == Some(Recovered(record.id))
            && JsonStringField(line, "kind") == Some(Recovered(record.kind))
            && JsonStringField(line, "status") == Some(Recovered(record.status))
            && JsonNumberField(line, "ts") == Some(Decimal(record.updatedAt))
            && JsonNumberField(line, "pid") == (if record.pid.Some? then Some(Decimal(record.pid.value)) else None)
  {
    hide JsonStringField, JsonNumberField;
    var raws := Values(event, record);
    ColumnsReadBack(raws, RecordLine(event, record));
    assert KEYS[0] == "ts" && KEYS[2] == "id" && KEYS[3] == "kind" && KEYS[4] == "status" && KEYS[5] == "pid";
  }

  lemma WrittenText(event: string, record: JobRecord)
    ensures var line := RecordLine(event, record);
            && JsonStringField(line, "command") == Some(Recovered(record.command))
            && JsonStringField(line, "task") == Some(Recovered(record.task))
            && JsonStringField(line, "log") == Some(Recovered(record.logPath))
            && JsonStringField(line, "result") == Some(Recovered(record.resultPath))
            && JsonStringField(line, "baseline") == Some(Recovered(record.baselinePath))
  {
    hide JsonStringField, JsonNumberField;
    var raws := Values(event, record);
    ColumnsReadBack(raws, RecordLine(event, record));
    assert KEYS[6] == "command" && KEYS[7] == "task" && KEYS[8] == "log" && KEYS[9] == "result"
        && KEYS[10] == "baseline";
  }

  /** What any written record reads back as: numbers exactly, strings as the
      scanner recovers them, metadata only when it names an agent. */
  lemma WrittenRecordReadsAs(event: string, record: JobRecord, fallbackBaseline: (string, string) -> string)
    ensures ParseRecord(RecordLine(event, record), fallbackBaseline) == Some(Seen(record))
  {
    WrittenHeader(event, record);
    WrittenText(event, record);
    WrittenAgent(event, record);
    ParseDecimal(record.updatedAt, U128_MAX);
    if record.pid.Some? {
      ParseDecimal(record.pid.value, U32_MAX);
    }
  }

  // ---- When the round trip is exact ----

  predicate PlainOptional(value: Option<string>) {
    value.Some? ==> value.value != "" && Plain(value.value)
  }

  predicate PlainOwner(owner: Owner) {
    && Plain(owner.workspaceId) && Plain(owner.projectId) && PlainOptional(owner.laneId)
    && PlainOptional(owner.sessionId) && PlainOptional(owner.taskId) && PlainOptional(owner.turnId)
  }

  predicate PlainAgent(agent: AgentMetadata) {
    agent.agentId != "" && Plain(agent.agentId) && PlainOptional(agent.model) && PlainOwner(agent.owner)
  }

  predicate PlainRecord(record: JobRecord) {
    && Plain(record.id) && Plain(record.kind) && Plain(record.status) && Plain(record.command) && Plain(record.task)
    && Plain(record.logPath) && Plain(record.resultPath) && Plain(record.baselinePath)
    && (record.agent.Some? ==> PlainAgent(record.agent.value))
  }

  lemma OptionalExact(value: Option<string>)
    ensures SeenOptional(value) == value <==> PlainOptional(value)
  {
    RecoveredExactly(value.GetOr(""));
    RecoveredShape(value.GetOr(""));
  }

  lemma AgentExact(agent: Option<AgentMetadata>)
    ensures SeenAgent(agent) == agent <==> (agent.Some? ==> PlainAgent(agent.value))
  {
    if agent.Some? {
      var AgentMetadata(agentId, model, owner) := agent.value;
      RecoveredExactly(agentId);
      RecoveredExactly(owner.workspaceId);
      RecoveredExactly(owner.projectId);
      OptionalExact(model);
      OptionalExact(owner.laneId);
      OptionalExact(owner.sessionId);
      OptionalExact(owner.taskId);
      OptionalExact(owner.turnId);
    }
  }

  /** Writing then reading is the identity on exactly the plain records. */
  lemma RecordRoundTrip(event: string, record: JobRecord, fallbackBaseline: (string, string) -> string)
    ensures ParseRecord(RecordLine(event, record), fallbackBaseline) == Some(record) <==> PlainRecord(record)
  {
    WrittenRecordReadsAs(event, record, fallbackBaseline);
    RecoveredExactly(record.id);
    RecoveredExactly(record.kind);
    RecoveredExactly(record.status);
    RecoveredExactly(record.command);
    RecoveredExactly(record.task);
    RecoveredExactly(record.logPath);
    RecoveredExactly(record.resultPath);
    RecoveredExactly(record.baselinePath);
    AgentExact(record.agent);
  }

  /** However hostile the other text is, the fields that drive the protocol
      come back exactly as soon as they are plain themselves. */
  lemma ProtocolFieldsSurvive(event: string, record: JobRecord, fallbackBaseline: (string, string) -> string)
    requires Plain(record.id) && Plain(record.kind) && Plain(record.status)
    ensures match ParseRecord(RecordLine(event, record), fallbackBaseline)
            case Some(read) =>
              && read.updatedAt == record.updatedAt && read.pid == record.pid
              && read.id == record.id && read.kind == record.kind && read.status == record.status
            case None => false
  {
    WrittenRecordReadsAs(event, record, fallbackBaseline);
    RecoveredExactly(record.id);
    RecoveredExactly(record.kind);
    RecoveredExactly(record.status);
  }
}
