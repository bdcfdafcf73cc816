/** The lines of the job log as any other JSON reader takes them. */
module JobJson {
  import opened Wrappers
  import opened Text
  import opened JobCodec
  import opened JobRecords
  import opened RuntimeTypes

  // ---- A reader of flat objects (RFC 8259, without insignificant space) ----

  datatype Json = JsonNumber(n: nat) | JsonNull | JsonString(text: string)

  datatype Member = Member(key: string, value: Json)

  /** What stands before the closing quote of a string, and after it. */
  function UpToQuote(s: string): (split: Option<(string, string)>)
    ensures split.Some? ==> |split.value.1| < |s|
  {
    if s == [] then None
    else if s[0] == '"' then Some(("", s[1..]))
    else
      var n := if s[0] == '\\' then 2 else 1;
      if |s| < n then None
      else match UpToQuote(s[n..])
        case Some((text, rest)) => Some((s[..n] + text, rest))
        case None => None
  }

  /** A string whose opening quote has been read. */
  function ReadString(s: string): (read: Option<(string, string)>)
    ensures read.Some? ==> |read.value.1| < |s|
  {
    match UpToQuote(s)
    case None => None
    case Some((text, rest)) =>
      if HasControl(text) then None
      else match Unescape(text)
        case Some(value) => Some((value, rest))
        case None => None
  }

  function ReadValue(s: string): (read: Option<(Json, string)>)
    ensures read.Some? ==> |read.value.1| < |s|
  {
    if s == [] then None
    else if s[0] == '"' then
      match ReadString(s[1..])
      case Some((text, rest)) => Some((JsonString(text), rest))
      case None => None
    else if "null" <= s then Some((JsonNull, s[4..]))
    else
      var digits := TakeDigits(s);
      if digits == [] || |digits| > |s| || (digits[0] == '0' && |digits| > 1) then None
      else Some((JsonNumber(DecimalValue(digits)), s[|digits|..]))
  }

  function ReadMembers(s: string): Option<seq<Member>>
    decreases |s|
  {
    if s == [] || s[0] != '"' then None
    else match ReadString(s[1..])
      case None => None
      case Some((key, afterKey)) =>
        if afterKey == [] || afterKey[0] != ':' then None
        else match ReadValue(afterKey[1..])
          case None => None
          case Some((value, after)) =>
            if after == "}" then Some([Member(key, value)])
            else if after == [] || after[0] != ',' then None
            else match ReadMembers(after[1..])
              case Some(members) => Some([Member(key, value)] + members)
              case None => None
  }

  function ReadObject(line: string): Option<seq<Member>> {
    if line != [] && line[0] == '{' then ReadMembers(line[1..]) else None
  }

  // ---- What it makes of a written line ----

  /** A control character that is written as it is. */
  predicate WritesControl(value: string) {
    exists i | 0 <= i < |value| :: value[i] < ' ' && value[i] != '\n' && value[i] != '\r' && value[i] != '\t'
  }

  lemma {:induction false} EscapedUpToQuote(value: string, rest: string)
    ensures UpToQuote(Escape(value) + "\"" + rest) == Some((Escape(value), rest))
  {
    if value == [] {
      assert Escape(value) + "\"" + rest == "\"" + rest;
      assert ("\"" + rest)[1..] == rest;
    } else {
      var head, more := EscapeChar(value[0]), Escape(value[1..]) + "\"" + rest;
      var text := head + more;
      EscapedUpToQuote(value[1..], rest);
      assert Escape(value) + "\"" + rest == text;
      assert text[0] == head[0] == (if Special(value[0]) then '\\' else value[0]);
      assert text[|head|..] == more && text[..|head|] == head;
    }
  }

  lemma EscapedReads(value: string, rest: string)
    ensures ReadString(Escape(value) + "\"" + rest) == if WritesControl(value) then None else Some((value, rest))
  {
    hide Escape, UpToQuote, Unescape;
    EscapedUpToQuote(value, rest);
    EscapeIsUndone(value);
    EscapedIsJsonExactly(value);
  }

  lemma {:induction false} DecimalHasNoPadding(n: nat)
    ensures n > 0 ==> Decimal(n)[0] != '0'
    ensures |Decimal(0)| == 1
  {
    if n >= 10 {
      DecimalHasNoPadding(n / 10);
    }
  }

  function Meant(raw: Raw): Json {
    match raw
    case Digits(n) => JsonNumber(n)
    case Null => JsonNull
    case Quoted(value) => JsonString(value)
  }

  lemma ValueReads(raw: Raw, rest: string)
    requires Separated(rest)
    ensures ReadValue(RenderRaw(raw) + rest) ==
            if raw.Quoted? && WritesControl(raw.value) then None else Some((Meant(raw), rest))
  {
    hide WritesControl, ReadString, Escape;
    var s := RenderRaw(raw) + rest;
    match raw {
      case Digits(n) =>
        TakeDigitsStops(Decimal(n), rest);
        DecimalHasNoPadding(n);
        DecimalRoundTrip(n);
        assert s[0] == Decimal(n)[0] && s[|Decimal(n)|..] == rest;
      case Null =>
        assert s[..4] == "null" && s[4..] == rest && s[0] == 'n';
      case Quoted(value) =>
        EscapedReads(value, rest);
        assert s[0] == '"' && s[1..] == Escape(value) + "\"" + rest;
    }
  }

  lemma {:induction false} KeyIsEscaped(key: string)
    requires forall i | 0 <= i < |key| :: KeyChar(key[i])
    ensures Escape(key) == key && !WritesControl(key)
  {
    if key != [] {
      KeyIsEscaped(key[1..]);
      assert key == [key[0]] + key[1..];
    }
  }

  function Members(fields: seq<Field>): (members: seq<Member>)
    ensures |members| == |fields|
  {
    seq(|fields|, i requires 0 <= i < |fields| => Member(fields[i].key, Meant(fields[i].raw)))
  }

  predicate FieldsWriteControl(fields: seq<Field>) {
    exists i | 0 <= i < |fields| :: fields[i].raw.Quoted? && WritesControl(fields[i].raw.value)
  }

  lemma MemberReads(field: Field, rest: string)
    requires GoodKey(field.key) && Separated(rest)
    ensures var s := Marker(field.key) + RenderRaw(field.raw) + rest;
            ReadMembers(s) ==
            if field.raw.Quoted? && WritesControl(field.raw.value) then None
            else if rest == "}" then Some([Member(field.key, Meant(field.raw))])
            else if rest[0] != ',' then None
            else match ReadMembers(rest[1..])
              case Some(members) => Some([Member(field.key, Meant(field.raw))] + members)
              case None => None
  {
    hide ReadString, ReadValue, WritesControl, RenderRaw, Escape;
    var key, value := field.key, RenderRaw(field.raw);
    var s := Marker(key) + value + rest;
    var afterKey := ":" + (value + rest);
    KeyIsEscaped(key);
    EscapedReads(key, afterKey);
    assert s == "\"" + (key + "\"" + afterKey);
    assert s[1..] == key + "\"" + afterKey;
    assert afterKey[1..] == value + rest;
    ValueReads(field.raw, rest);
  }

  /** A written line is a JSON object of exactly the fields written, in their
      order and with their values, unless one of them holds a control character
      that is not escaped: then, and only then, it is no JSON. */
  lemma {:induction false} LineIsJson(fields: seq<Field>)
    requires fields != [] && GoodFields(fields)
    ensures ReadObject(Render(fields)) == if FieldsWriteControl(fields) then None else Some(Members(fields))
  {
    hide ReadMembers, Body, WritesControl;
    assert Render(fields)[1..] == Body(fields);
    BodyIsJson(fields);
  }

  lemma {:induction false} BodyIsJson(fields: seq<Field>)
    requires fields != [] && GoodFields(fields)
    ensures ReadMembers(Body(fields)) == if FieldsWriteControl(fields) then None else Some(Members(fields))
  {
    hide ReadMembers, WritesControl, RenderRaw, Marker, GoodKey;
    var first, rest := fields[0], fields[1..];
    TailSeparated(rest);
    MemberReads(first, Tail(rest));
    assert fields == [first] + rest;
    if rest != [] {
      BodyIsJson(rest);
      assert Tail(rest)[1..] == Body(rest);
      assert Members(fields) == [Member(first.key, Meant(first.raw))] + Members(rest);
      assert FieldsWriteControl(fields) <==>
             (first.raw.Quoted? && WritesControl(first.raw.value)) || FieldsWriteControl(rest) by {
        assert forall i | 0 <= i < |rest| :: fields[i + 1] == rest[i];
        assert forall i | 1 <= i < |fields| :: fields[i] == rest[i - 1];
      }
    } else {
      assert Members(fields) == [Member(first.key, Meant(first.raw))];
    }
  }

  /** What a record says, to whoever reads JSON. */
  function Told(event: string, record: JobRecord): seq<Member> {
    var agent := record.agent.GetOr(NO_AGENT);
    [ Member("ts", JsonNumber(record.updatedAt)),
      Member("event", JsonString(event)),
      Member("id", JsonString(record.id)),
      Member("kind", JsonString(record.kind)),
      Member("status", JsonString(record.status)),
      Member("pid", match record.pid case Some(pid) => JsonNumber(pid) case None => JsonNull),
      Member("command", JsonString(record.command)),
      Member("task", JsonString(record.task)),
      Member("log", JsonString(record.logPath)),
      Member("result", JsonString(record.resultPath)),
      Member("baseline", JsonString(record.baselinePath)),
      Member("agent_id", JsonString(agent.agentId)),
      Member("model", JsonString(agent.model.GetOr(""))),
      Member("owner_workspace_id", JsonString(agent.owner.workspaceId)),
      Member("owner_project_id", JsonString(agent.owner.projectId)),
      Member("owner_lane_id", JsonString(agent.owner.laneId.GetOr(""))),
      Member("owner_session_id", JsonString(agent.owner.sessionId.GetOr(""))),
      Member("owner_task_id", JsonString(agent.owner.taskId.GetOr(""))),
      Member("owner_turn_id", JsonString(agent.owner.turnId.GetOr("")))]
  }

  lemma KeysTold(event: string, record: JobRecord)
    ensures |Told(event, record)| == |KEYS|
    ensures forall i | 0 <= i < |KEYS| :: Told(event, record)[i].key == KEYS[i]
  {
  }

  lemma ValuesTold(event: string, record: JobRecord)
    ensures |Told(event, record)| == |KEYS|
    ensures forall i | 0 <= i < |KEYS| :: Told(event, record)[i].value == Meant(Values(event, record)[i])
  {
  }

  lemma ToldIsWritten(event: string, record: JobRecord)
    ensures Members(Fields(Values(event, record))) == Told(event, record)
  {
    hide Told, Values, Meant;
    KeysTold(event, record);
    ValuesTold(event, record);
  }

  /** A record is read by any JSON reader as what it is, its texts whole, exactly
      if no text holds a control character other than a line feed, a carriage
      return or a tab. */
  lemma RecordIsJson(event: string, record: JobRecord)
    ensures ReadObject(RecordLine(event, record)) ==
            if forall member | member in Told(event, record) && member.value.JsonString? ::
                 !WritesControl(member.value.text)
            then Some(Told(event, record)) else None
  {
    hide Told, Values, WritesControl, ReadObject, Render;
    var fields := Fields(Values(event, record));
    KeysAreGood();
    LineIsJson(fields);
    ToldIsWritten(event, record);
    var told := Told(event, record);
    assert forall i | 0 <= i < |fields| :: told[i] == Member(fields[i].key, Meant(fields[i].raw));
    assert FieldsWriteControl(fields) <==>
           exists i | 0 <= i < |told| :: told[i].value.JsonString? && WritesControl(told[i].value.text);
  }
}
