/** The standing approvals kept in `[[permissions.standing]]`. */
module StandingApprovals {
  import opened Wrappers
  import opened Toml

  type u64 = n: int | 0 <= n < 0x1_0000_0000_0000_0000

  datatype Rule = Rule(
    ruleId: string,
    toolName: string,
    ruleContent: string,
    grantedAt: u64,
    grantedInWorkspace: string,
    auditId: string)

  datatype Diagnostic = NotAnArray | RepeatsRuleId(index: nat, ruleId: string) | MissingField(index: nat)

  const PERMISSIONS := "permissions"
  const STANDING := "standing"

  // ---- One entry ----

  function RuleToValue(rule: Rule): Value {
    Table(map[
            "rule_id" := Str(rule.ruleId),
            "tool_name" := Str(rule.toolName),
            "rule_content" := Str(rule.ruleContent),
            "granted_at" := Integer(if rule.grantedAt <= I64_MAX then rule.grantedAt else I64_MAX),
            "granted_in_workspace" := Str(rule.grantedInWorkspace),
            "audit_id" := Str(rule.auditId)])
  }

  function RuleFromValue(entry: Value): Option<Rule> {
    match (GetStr(entry, "rule_id"), GetStr(entry, "tool_name"), GetStr(entry, "rule_content"))
    case (Some(ruleId), Some(toolName), Some(ruleContent)) =>
      if ruleId == "" || toolName == "" then None
      else
        var grantedAt := match Get(entry, "granted_at")
          case Some(Integer(n)) => if n < 0 then 0 else n
          case _ => 0;
        Some(Rule(ruleId, toolName, ruleContent, grantedAt,
                  GetStr(entry, "granted_in_workspace").GetOr(""),
                  GetStr(entry, "audit_id").GetOr("")))
    case _ => None
  }

  function EntryId(entry: Value): Option<string> {
    GetStr(entry, "rule_id")
  }

  /** The rules a stored entry can represent. */
  predicate Storable(rule: Rule) {
    rule.ruleId != "" && rule.toolName != "" && rule.grantedAt <= I64_MAX
  }

  /** An entry gives back the rule it was written from exactly when the rule
      names an id and a tool and its time fits a TOML integer. */
  lemma RuleRoundTrip(rule: Rule)
    ensures RuleFromValue(RuleToValue(rule)) == Some(rule) <==> Storable(rule)
    ensures RuleFromValue(RuleToValue(rule)).None? <==> rule.ruleId == "" || rule.toolName == ""
    ensures EntryId(RuleToValue(rule)) == Some(rule.ruleId)
  {
    var entry := RuleToValue(rule);
    assert GetStr(entry, "rule_id") == Some(rule.ruleId);
    assert GetStr(entry, "tool_name") == Some(rule.toolName);
    assert GetStr(entry, "rule_content") == Some(rule.ruleContent);
    assert GetStr(entry, "granted_in_workspace") == Some(rule.grantedInWorkspace);
    assert GetStr(entry, "audit_id") == Some(rule.auditId);
    assert Get(entry, "granted_at") == Some(Integer(if rule.grantedAt <= I64_MAX then rule.grantedAt else I64_MAX));
  }

  // ---- The insertion-ordered map the rules in force form ----

  function Ids(rules: seq<Rule>): set<string> {
    if rules == [] then {} else {rules[0].ruleId} + Ids(rules[1..])
  }

  predicate UniqueIds(rules: seq<Rule>) {
    rules == [] || (rules[0].ruleId !in Ids(rules[1..]) && UniqueIds(rules[1..]))
  }

  function Without(rules: seq<Rule>, id: string): seq<Rule> {
    if rules == [] then []
    else if rules[0].ruleId == id then Without(rules[1..], id)
    else [rules[0]] + Without(rules[1..], id)
  }

  function Lookup(rules: seq<Rule>, id: string): Option<Rule> {
    if rules == [] then None
    else if rules[0].ruleId == id then Some(rules[0])
    else Lookup(rules[1..], id)
  }

  lemma {:induction false} WithoutIds(rules: seq<Rule>, id: string)
    ensures Ids(Without(rules, id)) == Ids(rules) - {id}
    ensures UniqueIds(rules) ==> UniqueIds(Without(rules, id))
    ensures id !in Ids(rules) ==> Without(rules, id) == rules
    ensures Lookup(rules, id).Some? <==> id in Ids(rules)
  {
    if rules != [] {
      WithoutIds(rules[1..], id);
    }
  }

  // ---- The rules a stored array puts in force ----

  /** The rules in force: every readable entry but for the later ones of a
      repeated id, in file order. `seen` holds the ids already in force. */
  function InForce(entries: seq<Value>, seen: set<string> := {}): seq<Rule> {
    if entries == [] then []
    else match RuleFromValue(entries[0])
      case None => InForce(entries[1..], seen)
      case Some(rule) =>
        if rule.ruleId in seen then InForce(entries[1..], seen)
        else [rule] + InForce(entries[1..], seen + {rule.ruleId})
  }

  /** One complaint per entry that is not in force. */
  function Complaints(entries: seq<Value>, seen: set<string> := {}, index: nat := 0): seq<Diagnostic> {
    if entries == [] then []
    else match RuleFromValue(entries[0])
      case None => [MissingField(index)] + Complaints(entries[1..], seen, index + 1)
      case Some(rule) =>
        if rule.ruleId in seen then [RepeatsRuleId(index, rule.ruleId)] + Complaints(entries[1..], seen, index + 1)
        else Complaints(entries[1..], seen + {rule.ruleId}, index + 1)
  }

  /** The ids the readable entries carry. */
  function Offered(entries: seq<Value>): set<string> {
    if entries == [] then {}
    else match RuleFromValue(entries[0])
      case None => Offered(entries[1..])
      case Some(rule) => {rule.ruleId} + Offered(entries[1..])
  }

  /** Whatever the array holds, each entry is either one rule in force or one
      diagnostic, and an id is in force once, exactly when an entry offers it. */
  lemma {:induction false} EveryEntryAnswered(entries: seq<Value>, seen: set<string>, index: nat)
    ensures |InForce(entries, seen)| + |Complaints(entries, seen, index)| == |entries|
    ensures UniqueIds(InForce(entries, seen))
    ensures Ids(InForce(entries, seen)) == Offered(entries) - seen
  {
    if entries != [] {
      var more := match RuleFromValue(entries[0]) case Some(rule) => {rule.ruleId} case None => {};
      EveryEntryAnswered(entries[1..], seen + more, index + 1);
      assert more <= seen ==> seen + more == seen;
    }
  }

  lemma Shift<T>(a: seq<T>, x: T, b: seq<T>)
    ensures a + ([x] + b) == a + [x] + b
  {
  }

  /** Reads the rules in force, left to right. */
  method LoadEntries(entries: seq<Value>) returns (rules: seq<Rule>, diagnostics: seq<Diagnostic>)
    ensures rules == InForce(entries)
    ensures diagnostics == Complaints(entries)
  {
    rules, diagnostics := [], [];
    ghost var seen := {};
    assert entries[0..] == entries;
    for index := 0 to |entries|
      invariant forall id :: id in seen <==> exists existing | existing in rules :: existing.ruleId == id
      invariant InForce(entries) == rules + InForce(entries[index..], seen)
      invariant Complaints(entries) == diagnostics + Complaints(entries[index..], seen, index)
    {
      ghost var rest := entries[index..];
      assert rest[0] == entries[index] && rest[1..] == entries[index + 1..];
      match RuleFromValue(entries[index]) {
        case Some(rule) =>
          if exists existing | existing in rules :: existing.ruleId == rule.ruleId {
            Shift(diagnostics, RepeatsRuleId(index, rule.ruleId), Complaints(rest[1..], seen, index + 1));
            diagnostics := diagnostics + [RepeatsRuleId(index, rule.ruleId)];
          } else {
            Shift(rules, rule, InForce(rest[1..], seen + {rule.ruleId}));
            rules := rules + [rule];
            seen := seen + {rule.ruleId};
          }
        case None =>
          Shift(diagnostics, MissingField(index), Complaints(rest[1..], seen, index + 1));
          diagnostics := diagnostics + [MissingField(index)];
      }
    }
    assert entries[|entries|..] == [];
  }

  // ---- Editing the array ----

  /** Keeps the entries that do not carry `id`, readable or not. */
  function Retain(entries: seq<Value>, id: string): seq<Value> {
    if entries == [] then []
    else if EntryId(entries[0]) == Some(id) then Retain(entries[1..], id)
    else [entries[0]] + Retain(entries[1..], id)
  }

  /** Dropping every carrier of an id takes exactly that rule out of force, on
      any array whatever. */
  lemma {:induction false} InForceRetain(entries: seq<Value>, id: string, seen: set<string>, seen': set<string>)
    requires seen - {id} == seen' - {id}
    ensures InForce(Retain(entries, id), seen) == Without(InForce(entries, seen'), id)
    ensures Offered(Retain(entries, id)) == Offered(entries) - {id}
  {
    if entries != [] {
      match RuleFromValue(entries[0]) {
        case None => InForceRetain(entries[1..], id, seen, seen');
        case Some(rule) =>
          if rule.ruleId == id {
            InForceRetain(entries[1..], id, seen, seen' + {id});
            InForceRetain(entries[1..], id, seen, seen');
          } else {
            assert rule.ruleId in seen - {id} <==> rule.ruleId in seen' - {id};
            assert seen + {rule.ruleId} - {id} == (seen - {id}) + {rule.ruleId} == seen' + {rule.ruleId} - {id};
            InForceRetain(entries[1..], id, seen + {rule.ruleId}, seen' + {rule.ruleId});
            InForceRetain(entries[1..], id, seen, seen');
          }
      }
    }
  }

  lemma {:induction false} InForceAppend(entries: seq<Value>, last: Value, seen: set<string>)
    ensures InForce(entries + [last], seen) == InForce(entries, seen) + InForce([last], seen + Offered(entries))
  {
    if entries == [] {
      assert [] + [last] == [last] && seen + {} == seen;
    } else {
      assert (entries + [last])[1..] == entries[1..] + [last];
      match RuleFromValue(entries[0]) {
        case None => InForceAppend(entries[1..], last, seen);
        case Some(rule) =>
          InForceAppend(entries[1..], last, seen);
          InForceAppend(entries[1..], last, seen + {rule.ruleId});
          assert seen + {rule.ruleId} + Offered(entries[1..]) == seen + Offered(entries);
          assert rule.ruleId in seen ==> seen + {rule.ruleId} == seen;
      }
    }
  }

  lemma InForceOne(entry: Value, seen: set<string>)
    ensures InForce([entry], seen) == match RuleFromValue(entry)
      case Some(rule) => if rule.ruleId in seen then [] else [rule]
      case None => []
  {
    assert [entry][1..] == [];
  }

  function Granted(entries: seq<Value>, rule: Rule): seq<Value> {
    Retain(entries, rule.ruleId) + [RuleToValue(rule)]
  }

  /** A grant replaces the rule of that id and moves it to the end, on any
      array; the rule itself comes into force when it names an id and a tool. */
  lemma GrantTakesEffect(entries: seq<Value>, rule: Rule)
    ensures InForce(Granted(entries, rule)) ==
            Without(InForce(entries), rule.ruleId) + InForce([RuleToValue(rule)])
    ensures InForce([RuleToValue(rule)]) == [rule] <==> Storable(rule)
    ensures InForce([RuleToValue(rule)]) == [] <==> rule.ruleId == "" || rule.toolName == ""
  {
    var entry := RuleToValue(rule);
    RuleRoundTrip(rule);
    InForceRetain(entries, rule.ruleId, {}, {});
    InForceAppend(Retain(entries, rule.ruleId), entry, {});
    assert {} + Offered(Retain(entries, rule.ruleId)) == Offered(entries) - {rule.ruleId};
    InForceOne(entry, {});
    InForceOne(entry, Offered(entries) - {rule.ruleId});
  }

  /** The first entry that carries `id`. */
  function Position(entries: seq<Value>, id: string): (index: Option<nat>)
    ensures index.Some? ==> index.value < |entries|
  {
    if entries == [] then None
    else if EntryId(entries[0]) == Some(id) then Some(0)
    else match Position(entries[1..], id)
      case Some(i) => Some(i + 1)
      case None => None
  }

  function RemoveAt(entries: seq<Value>, i: nat): seq<Value>
    requires i < |entries|
  {
    entries[..i] + entries[i + 1..]
  }

  /** The array a revoke leaves, and the rule in the entry it took. */
  function AfterRevoke(entries: seq<Value>, id: string): seq<Value> {
    match Position(entries, id)
    case Some(i) => RemoveAt(entries, i)
    case None => entries
  }

  function Revoked(entries: seq<Value>, id: string): Option<Rule> {
    match Position(entries, id)
    case Some(i) => RuleFromValue(entries[i])
    case None => None
  }

  lemma RevokeHead(entries: seq<Value>, id: string)
    requires entries != []
    ensures AfterRevoke(entries, id) ==
            if EntryId(entries[0]) == Some(id) then entries[1..] else [entries[0]] + AfterRevoke(entries[1..], id)
    ensures Revoked(entries, id) ==
            if EntryId(entries[0]) == Some(id) then RuleFromValue(entries[0]) else Revoked(entries[1..], id)
  {
    hide RuleFromValue, EntryId;
    var rest := entries[1..];
    if EntryId(entries[0]) == Some(id) {
      assert RemoveAt(entries, 0) == rest;
    } else if Position(rest, id).Some? {
      var i := Position(rest, id).value;
      RemoveLater(entries, i);
      assert entries[i + 1] == rest[i];
    } else {
      assert [entries[0]] + rest == entries;
    }
  }

  lemma RemoveLater(entries: seq<Value>, i: nat)
    requires i + 1 < |entries|
    ensures RemoveAt(entries, i + 1) == [entries[0]] + RemoveAt(entries[1..], i)
  {
    assert entries[..i + 1] == [entries[0]] + entries[1..][..i];
    assert entries[1..][i + 1..] == entries[i + 2..];
  }

  /** No readable entry with this id stands behind the first carrier. */
  predicate SoleOffer(entries: seq<Value>, id: string) {
    match Position(entries, id)
    case Some(i) => id !in Offered(entries[i + 1..])
    case None => true
  }

  lemma SoleOfferHead(entries: seq<Value>, id: string)
    requires entries != []
    ensures SoleOffer(entries, id) <==>
            if EntryId(entries[0]) == Some(id) then id !in Offered(entries[1..]) else SoleOffer(entries[1..], id)
  {
    if Position(entries[1..], id).Some? {
      var i := Position(entries[1..], id).value;
      assert entries[1..][i + 1..] == entries[i + 2..];
    }
  }

  lemma {:induction false} UnofferedIsIrrelevant(entries: seq<Value>, id: string, seen: set<string>)
    requires id !in Offered(entries)
    ensures InForce(entries, seen + {id}) == InForce(entries, seen)
  {
    if entries != [] {
      match RuleFromValue(entries[0]) {
        case None => UnofferedIsIrrelevant(entries[1..], id, seen);
        case Some(rule) =>
          UnofferedIsIrrelevant(entries[1..], id, seen);
          UnofferedIsIrrelevant(entries[1..], id, seen + {rule.ruleId});
          assert seen + {rule.ruleId} + {id} == seen + {id} + {rule.ruleId};
      }
    }
  }

  /** A revoke takes the rule out of force exactly when no readable entry
      repeats its id; otherwise the next repeat comes into force. */
  lemma {:induction false} RevokeTakesEffect(entries: seq<Value>, id: string, seen: set<string>)
    requires id !in seen
    ensures InForce(AfterRevoke(entries, id), seen) == Without(InForce(entries, seen), id) <==> SoleOffer(entries, id)
  {
    if entries != [] {
      var rest := entries[1..];
      RevokeHead(entries, id);
      SoleOfferHead(entries, id);
      if EntryId(entries[0]) == Some(id) {
        EveryEntryAnswered(rest, seen, 0);
        EveryEntryAnswered(rest, seen + {id}, 0);
        WithoutIds(InForce(entries, seen), id);
        WithoutIds(InForce(rest, seen), id);
        WithoutIds(InForce(rest, seen + {id}), id);
        if id !in Offered(rest) {
          UnofferedIsIrrelevant(rest, id, seen);
        }
      } else {
        var after := AfterRevoke(rest, id);
        assert ([entries[0]] + after)[1..] == after;
        RevokeTakesEffect(rest, id, seen);
        if RuleFromValue(entries[0]).Some? {
          var rule := RuleFromValue(entries[0]).value;
          RevokeTakesEffect(rest, id, seen + {rule.ruleId});
          ConsInjective(rule, InForce(after, seen + {rule.ruleId}), Without(InForce(rest, seen + {rule.ruleId}), id));
        }
      }
    }
  }

  lemma ConsInjective(head: Rule, a: seq<Rule>, b: seq<Rule>)
    ensures [head] + a == [head] + b <==> a == b
  {
    assert ([head] + a)[1..] == a && ([head] + b)[1..] == b;
  }

  lemma OneOffer(entry: Value)
    ensures Offered([entry]) == match RuleFromValue(entry) case Some(rule) => {rule.ruleId} case None => {}
  {
    hide RuleFromValue;
    assert [entry][1..] == [];
  }

  /** With two entries of one id, a revoke brings the second into force. */
  lemma RevokeMayRevealRepeat(rule: Rule, again: Rule)
    requires Storable(rule) && Storable(again) && again.ruleId == rule.ruleId
    ensures var entries := [RuleToValue(rule), RuleToValue(again)];
            && InForce(entries) == [rule]
            && InForce(AfterRevoke(entries, rule.ruleId)) == [again]
  {
    hide RuleFromValue, RuleToValue, InForce, Offered;
    RuleRoundTrip(rule);
    RuleRoundTrip(again);
    var first, second := RuleToValue(rule), RuleToValue(again);
    assert [first] + [second] == [first, second] && [first, second][1..] == [second];
    RevokeHead([first, second], rule.ruleId);
    InForceAppend([first], second, {});
    OneOffer(first);
    InForceOne(first, {});
    InForceOne(second, {});
    InForceOne(second, {} + {rule.ruleId});
  }

  /** The first entry that carries the id can be read as a rule. */
  predicate FirstCarrierReads(entries: seq<Value>, id: string) {
    match Position(entries, id)
    case Some(i) => RuleFromValue(entries[i]).Some?
    case None => false
  }

  /** With an unreadable entry before it, the rule in force goes unreported. */
  lemma RevokeMayMissRule(rule: Rule)
    requires Storable(rule)
    ensures var entries := [Table(map["rule_id" := Str(rule.ruleId)]), RuleToValue(rule)];
            && Revoked(entries, rule.ruleId) == None
            && InForce(AfterRevoke(entries, rule.ruleId)) == InForce(entries) == [rule]
  {
    RuleRoundTrip(rule);
    var first, second := Table(map["rule_id" := Str(rule.ruleId)]), RuleToValue(rule);
    assert [first, second][1..] == [second] && [second][1..] == [];
  }

  /** A revoke reports the rule that was in force exactly when the first entry
      with the id can be read, or none can. */
  lemma {:induction false} RevokeReportsRuleInForce(entries: seq<Value>, id: string, seen: set<string>)
    requires id !in seen
    ensures Revoked(entries, id) == Lookup(InForce(entries, seen), id)
       <==> FirstCarrierReads(entries, id) || id !in Offered(entries)
  {
    EveryEntryAnswered(entries, seen, 0);
    WithoutIds(InForce(entries, seen), id);
    if entries != [] {
      RevokeHead(entries, id);
      if EntryId(entries[0]) != Some(id) {
        RevokeReportsRuleInForce(entries[1..], id, seen);
        if RuleFromValue(entries[0]).Some? {
          RevokeReportsRuleInForce(entries[1..], id, seen + {RuleFromValue(entries[0]).value.ruleId});
        }
      }
    }
  }

  // ---- The settings document ----

  function SubValue(value: Value): Option<Value> {
    match Get(value, PERMISSIONS)
    case Some(permissions) => Get(permissions, STANDING)
    case None => None
  }

  /** The array an edit works on, created empty where it is absent. */
  function StandingEntries(value: Value): Result<seq<Value>, ConfigError> {
    if !value.Table? then Err(RootNotTable)
    else match Get(value, PERMISSIONS).GetOr(Table(map[]))
      case Table(permissions) =>
        (match Get(Table(permissions), STANDING).GetOr(Array([]))
         case Array(items) => Ok(items)
         case _ => Err(KeyNotArray(STANDING)))
      case _ => Err(KeyNotTable(PERMISSIONS))
  }

  /** The document with that array replaced. */
  function WithEntries(value: Value, items: seq<Value>): Value
    requires StandingEntries(value).Ok?
  {
    var permissions := Get(value, PERMISSIONS).GetOr(Table(map[])).entries;
    Table(value.entries[PERMISSIONS := Table(permissions[STANDING := Array(items)])])
  }

  /** Everything in the document but the standing array. */
  function Elsewhere(value: Value): (Map, Map) {
    if !value.Table? then (map[], map[])
    else
      (value.entries - {PERMISSIONS},
       match Get(value, PERMISSIONS)
       case Some(Table(permissions)) => permissions - {STANDING}
       case _ => map[])
  }

  lemma WithEntriesChangesOnlyEntries(value: Value, items: seq<Value>)
    requires StandingEntries(value).Ok?
    ensures StandingEntries(WithEntries(value, items)) == Ok(items)
    ensures SubValue(WithEntries(value, items)) == Some(Array(items))
    ensures Elsewhere(WithEntries(value, items)) == Elsewhere(value)
  {
    var after := WithEntries(value, items);
    assert after.entries - {PERMISSIONS} == value.entries - {PERMISSIONS};
    var permissions := Get(value, PERMISSIONS).GetOr(Table(map[])).entries;
    assert permissions[STANDING := Array(items)] - {STANDING} == permissions - {STANDING};
  }

  function GrantIn(state: FileState, rule: Rule): Result<FileState, ConfigError> {
    match ReadConfigValue(state)
    case Err(error) => Err(error)
    case Ok(value) =>
      match StandingEntries(value)
      case Err(error) => Err(error)
      case Ok(entries) => Ok(Document(WithEntries(value, Granted(entries, rule))))
  }

  /** A revoke that finds nothing leaves the file as it was. */
  function RevokeIn(state: FileState, id: string): Result<FileState, ConfigError> {
    match ReadConfigValue(state)
    case Err(error) => Err(error)
    case Ok(value) =>
      match StandingEntries(value)
      case Err(error) => Err(error)
      case Ok(entries) =>
        if Position(entries, id).None? then Ok(state)
        else Ok(Document(WithEntries(value, AfterRevoke(entries, id))))
  }

  class SettingsFile {
    var state: FileState

    constructor ()
      ensures state == Missing
    {
      state := Missing;
    }

    method LoadUserStandingApprovals() returns (r: Result<(seq<Rule>, seq<Diagnostic>), ConfigError>)
      ensures match ReadConfigValue(state)
              case Err(error) => r == Err(error)
              case Ok(value) =>
                match SubValue(value)
                case None => r == Ok(([], []))
                case Some(Array(items)) => r == Ok((InForce(items), Complaints(items)))
                case Some(_) => r == Ok(([], [NotAnArray]))
    {
      match ReadConfigValue(state) {
        case Err(error) => r := Err(error);
        case Ok(value) =>
          match SubValue(value) {
            case None => r := Ok(([], []));
            case Some(Array(items)) =>
              var rules, diagnostics := LoadEntries(items);
              r := Ok((rules, diagnostics));
            case Some(_) => r := Ok(([], [NotAnArray]));
          }
      }
    }

    method GrantUserStandingApproval(rule: Rule) returns (r: Result<(), ConfigError>)
      modifies this
      ensures match GrantIn(old(state), rule)
              case Ok(after) => r == Ok(()) && state == after
              case Err(error) => r == Err(error) && state == old(state)
    {
      match ReadConfigValue(state) {
        case Err(error) => return Err(error);
        case Ok(value) =>
          match StandingEntries(value) {
            case Err(error) => return Err(error);
            case Ok(stored) =>
              var entries := Retain(stored, rule.ruleId);
              entries := entries + [RuleToValue(rule)];
              state := Document(WithEntries(value, entries));
              return Ok(());
          }
      }
    }

    method RevokeUserStandingApproval(id: string) returns (r: Result<Option<Rule>, ConfigError>)
      modifies this
      ensures match RevokeIn(old(state), id)
              case Ok(after) =>
                && state == after
                && r == Ok(Revoked(StandingEntries(ReadConfigValue(old(state)).value).value, id))
              case Err(error) => r == Err(error) && state == old(state)
    {
      match ReadConfigValue(state) {
        case Err(error) => return Err(error);
        case Ok(value) =>
          match StandingEntries(value) {
            case Err(error) => return Err(error);
            case Ok(entries) =>
              match Position(entries, id) {
                case None => return Ok(None);
                case Some(index) =>
                  var removed := entries[index];
                  state := Document(WithEntries(value, RemoveAt(entries, index)));
                  return Ok(RuleFromValue(removed));
              }
          }
      }
    }
  }

  // ---- Every run from an empty file is a run of the map ----

  datatype Edit = Grant(rule: Rule) | Revoke(id: string)

  function EditMap(rules: seq<Rule>, edit: Edit): seq<Rule> {
    match edit
    case Grant(rule) => Without(rules, rule.ruleId) + [rule]
    case Revoke(id) => Without(rules, id)
  }

  function EditFile(state: FileState, edit: Edit): FileState {
    match (match edit case Grant(rule) => GrantIn(state, rule) case Revoke(id) => RevokeIn(state, id))
    case Ok(after) => after
    case Err(_) => state
  }

  function RunMap(rules: seq<Rule>, edits: seq<Edit>): seq<Rule>
    decreases edits
  {
    if edits == [] then rules else RunMap(EditMap(rules, edits[0]), edits[1..])
  }

  function RunFile(state: FileState, edits: seq<Edit>): FileState
    decreases edits
  {
    if edits == [] then state else RunFile(EditFile(state, edits[0]), edits[1..])
  }

  function Stored(rules: seq<Rule>): seq<Value> {
    if rules == [] then [] else [RuleToValue(rules[0])] + Stored(rules[1..])
  }

  predicate AllStorable(rules: seq<Rule>) {
    forall rule | rule in rules :: Storable(rule)
  }

  /** The file holds exactly these rules, in this order. */
  predicate Holds(state: FileState, rules: seq<Rule>) {
    && UniqueIds(rules) && AllStorable(rules)
    && ReadConfigValue(state).Ok?
    && StandingEntries(ReadConfigValue(state).value) == Ok(Stored(rules))
  }

  lemma {:induction false} StoredInForce(rules: seq<Rule>, seen: set<string>, index: nat)
    requires UniqueIds(rules) && AllStorable(rules) && Ids(rules) !! seen
    ensures InForce(Stored(rules), seen) == rules
    ensures Complaints(Stored(rules), seen, index) == []
    ensures Offered(Stored(rules)) == Ids(rules)
  {
    if rules != [] {
      RuleRoundTrip(rules[0]);
      assert Stored(rules)[1..] == Stored(rules[1..]);
      StoredInForce(rules[1..], seen + {rules[0].ruleId}, index + 1);
    }
  }

  lemma {:induction false} StoredEdits(rules: seq<Rule>, id: string)
    requires UniqueIds(rules)
    ensures Retain(Stored(rules), id) == Stored(Without(rules, id))
    ensures AfterRevoke(Stored(rules), id) == Stored(Without(rules, id))
    ensures AllStorable(rules) ==> Revoked(Stored(rules), id) == Lookup(rules, id)
    ensures AllStorable(rules) ==> AllStorable(Without(rules, id))
    ensures Position(Stored(rules), id).None? ==> Without(rules, id) == rules
  {
    if rules != [] {
      var rest := rules[1..];
      RuleRoundTrip(rules[0]);
      assert Stored(rules)[1..] == Stored(rest);
      StoredEdits(rest, id);
      RevokeHead(Stored(rules), id);
      if rules[0].ruleId == id {
        WithoutIds(rest, id);
      } else {
        assert ([rules[0]] + Without(rest, id))[1..] == Without(rest, id);
      }
    }
  }

  lemma {:induction false} StoredAppend(rules: seq<Rule>, last: Rule)
    requires UniqueIds(rules) && last.ruleId !in Ids(rules)
    ensures Stored(rules + [last]) == Stored(rules) + [RuleToValue(last)]
    ensures UniqueIds(rules + [last]) && Ids(rules + [last]) == Ids(rules) + {last.ruleId}
  {
    if rules == [] {
      assert [] + [last] == [last];
    } else {
      assert (rules + [last])[1..] == rules[1..] + [last];
      StoredAppend(rules[1..], last);
    }
  }

  lemma GrantStored(rules: seq<Rule>, rule: Rule)
    requires UniqueIds(rules) && AllStorable(rules) && Storable(rule)
    ensures var after := Without(rules, rule.ruleId) + [rule];
            Granted(Stored(rules), rule) == Stored(after) && UniqueIds(after) && AllStorable(after)
  {
    StoredEdits(rules, rule.ruleId);
    WithoutIds(rules, rule.ruleId);
    StoredAppend(Without(rules, rule.ruleId), rule);
  }

  /** One edit of a file that holds a map is that edit of the map, it reports
      what the map had, and it touches nothing else in the file. */
  lemma EditRefines(state: FileState, rules: seq<Rule>, edit: Edit)
    requires Holds(state, rules)
    requires edit.Grant? ==> Storable(edit.rule)
    ensures Holds(EditFile(state, edit), EditMap(rules, edit))
    ensures Elsewhere(ReadConfigValue(EditFile(state, edit)).value) == Elsewhere(ReadConfigValue(state).value)
    ensures edit.Revoke? ==> Revoked(Stored(rules), edit.id) == Lookup(rules, edit.id)
  {
    var value := ReadConfigValue(state).value;
    match edit {
      case Grant(rule) =>
        GrantStored(rules, rule);
        WithEntriesChangesOnlyEntries(value, Granted(Stored(rules), rule));
      case Revoke(id) =>
        StoredEdits(rules, id);
        WithoutIds(rules, id);
        WithEntriesChangesOnlyEntries(value, AfterRevoke(Stored(rules), id));
    }
  }

  /** From a file that holds a map, every run of grants and revokes keeps the
      file and the map together; what a load then answers is the map itself. */
  lemma {:induction false} RunsRefineOrderedMap(state: FileState, rules: seq<Rule>, edits: seq<Edit>)
    requires Holds(state, rules)
    requires forall edit | edit in edits :: edit.Grant? ==> Storable(edit.rule)
    ensures Holds(RunFile(state, edits), RunMap(rules, edits))
    ensures Elsewhere(ReadConfigValue(RunFile(state, edits)).value) == Elsewhere(ReadConfigValue(state).value)
    ensures InForce(Stored(RunMap(rules, edits))) == RunMap(rules, edits)
    ensures Complaints(Stored(RunMap(rules, edits))) == []
    decreases edits
  {
    if edits == [] {
      StoredInForce(rules, {}, 0);
    } else {
      EditRefines(state, rules, edits[0]);
      RunsRefineOrderedMap(EditFile(state, edits[0]), EditMap(rules, edits[0]), edits[1..]);
    }
  }

  lemma MissingFileHoldsNothing()
    ensures Holds(Missing, [])
  {
  }
}
