/** Two preference records in one `[ui]` table: the appearance profile and the
    cockpit layout. */
module UiStore {
  import opened Toml
  import opened Wrappers
  import opened UiAppearance
  import opened UiLayout

  /** How an atomic write ends. The directory is synced after the new file took
      the old one's place, so a write can fail with the new file there. */
  datatype Write = Durable | Refused(error: string) | Unsynced(error: string)

  datatype UiError =
    | Config(error: ConfigError)
    | Rejected(rejection: Rejection)
    | Diagnosed(diagnostic: Diagnostic)
    | InvalidPair
    | WriteFailed(reason: string)

  function Replaced(state: FileState, value: Value, write: Write): FileState {
    if write.Refused? then state else Document(value)
  }

  /** The value under a key that is created as an empty table if missing. */
  function Entry(table: Map, key: string): Value {
    if key in table then table[key] else Table(map[])
  }

  // ---- The layout record ----

  /** The raw value of `[ui.layout]`. */
  function LayoutRecord(value: Value): Option<Value> {
    match Get(value, "ui")
    case Some(ui) => Get(ui, "layout")
    case None => None
  }

  function PutLayout(value: Value, layout: Layout): Result<Value, ConfigError> {
    if !value.Table? then Err(RootNotTable)
    else
      var ui := Entry(value.entries, "ui");
      if !ui.Table? then Err(KeyNotTable("ui"))
      else
        var table := Entry(ui.entries, "layout");
        if !table.Table? then Err(KeyNotTable("ui.layout"))
        else Ok(Table(value.entries["ui" := Table(ui.entries["layout" := Table(WriteLayout(table.entries, layout))])]))
  }

  function DropLayout(value: Value): Result<Value, ConfigError> {
    if !value.Table? then Err(RootNotTable)
    else match Get(value, "ui")
      case Some(Table(ui)) => Ok(Table(value.entries["ui" := Table(ui - {"layout"})]))
      case _ => Ok(value)
  }

  datatype LayoutState = LayoutState(layout: Layout, persisted: bool, diagnostics: seq<Diagnostic>)

  function ResolveLayoutIn(state: FileState): Result<LayoutState, UiError> {
    match ReadConfigValue(state)
    case Err(error) => Err(Config(error))
    case Ok(value) =>
      var (layout, diagnostics) := ParseLayout(LayoutRecord(value));
      Ok(LayoutState(layout, true, diagnostics))
  }

  /** The document a save writes, and the record it reports if the write works. */
  function SaveLayoutIn(state: FileState, patch: LayoutPatch): Result<(Value, LayoutState), UiError> {
    if Validate(patch).Some? then Err(Rejected(Validate(patch).value))
    else match ReadConfigValue(state)
      case Err(error) => Err(Config(error))
      case Ok(value) =>
        var (stored, diagnostics) := ParseLayout(LayoutRecord(value));
        var layout := ApplyLayoutPatch(stored, patch);
        match PutLayout(value, layout)
        case Err(error) => Err(Config(error))
        case Ok(after) => Ok((after, LayoutState(layout, true, diagnostics)))
  }

  function ResetLayoutIn(state: FileState): Result<Value, UiError> {
    match ReadConfigValue(state)
    case Err(error) => Err(Config(error))
    case Ok(value) =>
      match DropLayout(value)
      case Err(error) => Err(Config(error))
      case Ok(after) => Ok(after)
  }

  /** The reply after a write: a failure is reported, not refused. */
  function AfterWrite(saved: LayoutState, write: Write): LayoutState {
    if write == Durable then saved
    else LayoutState(saved.layout, false,
                     saved.diagnostics + [Diagnostic("ui.layout.not_persisted", "ui.layout", "ui.layout",
                                                     Some(write.error))])
  }

  // ---- The appearance record ----

  datatype AppearanceState = AppearanceState(
    persisted: Option<Profile>,
    resolved: Profile,
    diagnostics: seq<Diagnostic>)

  function ResolveAppearanceIn(state: FileState, cli: Option<Profile>, client: Profile)
    : Result<AppearanceState, UiError>
  {
    match ReadConfigValue(state)
    case Err(error) => Err(Config(error))
    case Ok(value) =>
      var (persisted, complaint) := PersistedProfile(value);
      var (resolved, valid) := Resolve(cli, persisted, client);
      if !valid then Err(InvalidPair)
      else if cli == None && complaint.Some? then
        Ok(AppearanceState(persisted, Profile(resolved.locale, Aurora, Dark, Regular, resolved.motion),
                           [complaint.value]))
      else Ok(AppearanceState(persisted, resolved, []))
  }

  function SaveAppearanceIn(state: FileState, patch: Patch, client: Profile)
    : Result<(Value, AppearanceState), UiError>
  {
    match ReadConfigValue(state)
    case Err(error) => Err(Config(error))
    case Ok(value) =>
      var (stored, complaint) := PersistedProfile(value);
      if complaint.Some? then Err(Diagnosed(complaint.value))
      else
        var profile := ApplyPatch(stored.GetOr(CLIENT_DEFAULT), patch);
        var (resolved, valid) := Resolve(None, Some(profile), client);
        if !valid then Err(InvalidPair)
        else if !value.Table? then Err(Config(RootNotTable))
        else match Entry(value.entries, "ui")
          case Table(ui) => Ok((Table(value.entries["ui" := Table(PatchTable(ui, patch))]),
                                AppearanceState(Some(profile), resolved, [])))
          case _ => Err(Config(KeyNotTable("ui")))
  }

  /** The reply after a write: a failure is an error. */
  function AppearanceReply(saved: AppearanceState, write: Write): Result<AppearanceState, UiError> {
    if write == Durable then Ok(saved) else Err(WriteFailed(write.error))
  }

  /** The document without its profile: `[ui]` goes, its layout comes back. */
  function WithoutProfile(root: Map, layout: Option<Value>): Map {
    match layout
    case Some(record) => root["ui" := Table(map["layout" := record])]
    case None => root - {"ui"}
  }

  function ResetAppearanceIn(state: FileState, cli: Option<Profile>, client: Profile)
    : Result<(Value, AppearanceState), UiError>
  {
    match ReadConfigValue(state)
    case Err(error) => Err(Config(error))
    case Ok(value) =>
      var (_, complaint) := PersistedProfile(value);
      var (resolved, valid) := Resolve(cli, None, client);
      if complaint.Some? then Err(Diagnosed(complaint.value))
      else if !valid then Err(InvalidPair)
      else if !value.Table? then Err(Config(RootNotTable))
      else Ok((Table(WithoutProfile(value.entries, LayoutRecord(value))), AppearanceState(None, resolved, [])))
  }

  // ---- The store ----

  /** The user configuration file, edited in place. */
  class PreferenceFile {
    var state: FileState

    constructor (state: FileState)
      ensures this.state == state
    {
      this.state := state;
    }

    method ResolveUserUiLayoutPreferences() returns (r: Result<LayoutState, UiError>)
      ensures r == ResolveLayoutIn(state)
    {
      match ReadConfigValue(state) {
        case Err(error) => r := Err(Config(error));
        case Ok(value) =>
          var layout, diagnostics := ParseLayoutPreferences(LayoutRecord(value));
          r := Ok(LayoutState(layout, true, diagnostics));
      }
    }

    method SaveUserUiLayoutPreferences(patch: LayoutPatch, write: Write) returns (r: Result<LayoutState, UiError>)
      modifies this
      ensures match SaveLayoutIn(old(state), patch)
              case Err(error) => r == Err(error) && state == old(state)
              case Ok((value, saved)) =>
                state == Replaced(old(state), value, write) && r == Ok(AfterWrite(saved, write))
    {
      var rejection := CheckPatch(patch);
      if rejection.Some? {
        return Err(Rejected(rejection.value));
      }
      match ReadConfigValue(state) {
        case Err(error) => return Err(Config(error));
        case Ok(value) =>
          var layout, diagnostics := ParseLayoutPreferences(LayoutRecord(value));
          layout := ApplyLayoutPatch(layout, patch);
          match PutLayout(value, layout) {
            case Err(error) => return Err(Config(error));
            case Ok(after) =>
              state := Replaced(state, after, write);
              r := Ok(AfterWrite(LayoutState(layout, true, diagnostics), write));
          }
      }
    }

    method ResetUserUiLayoutPreferences(write: Write) returns (r: Result<LayoutState, UiError>)
      modifies this
      ensures match ResetLayoutIn(old(state))
              case Err(error) => r == Err(error) && state == old(state)
              case Ok(value) =>
                && state == Replaced(old(state), value, write)
                && r == Ok(AfterWrite(LayoutState(DEFAULT_LAYOUT, true, []), write))
    {
      match ReadConfigValue(state) {
        case Err(error) => return Err(Config(error));
        case Ok(value) =>
          match DropLayout(value) {
            case Err(error) => return Err(Config(error));
            case Ok(after) =>
              state := Replaced(state, after, write);
              r := Ok(AfterWrite(LayoutState(DEFAULT_LAYOUT, true, []), write));
          }
      }
    }

    method SaveUserUiPreferences(patch: Patch, client: Profile, write: Write)
      returns (r: Result<AppearanceState, UiError>)
      modifies this
      ensures match SaveAppearanceIn(old(state), patch, client)
              case Err(error) => r == Err(error) && state == old(state)
              case Ok((value, saved)) =>
                && state == Replaced(old(state), value, write)
                && r == AppearanceReply(saved, write)
    {
      hide PatchTable, PersistedProfile, Resolve;
      var preview := SaveAppearanceIn(state, patch, client);
      if preview.Err? {
        return Err(preview.error);
      }
      var root := ReadConfigValue(state).value.entries;
      var ui := Entry(root, "ui").entries;
      ui := PatchTable(ui, patch);
      root := root["ui" := Table(ui)];
      state := Replaced(state, Table(root), write);
      r := if write == Durable then Ok(preview.value.1) else Err(WriteFailed(write.error));
    }

    method ResetUserUiPreferences(cli: Option<Profile>, client: Profile, write: Write)
      returns (r: Result<AppearanceState, UiError>)
      modifies this
      ensures match ResetAppearanceIn(old(state), cli, client)
              case Err(error) => r == Err(error) && state == old(state)
              case Ok((value, saved)) =>
                && state == Replaced(old(state), value, write)
                && r == AppearanceReply(saved, write)
    {
      hide PersistedProfile, Resolve;
      var preview := ResetAppearanceIn(state, cli, client);
      if preview.Err? {
        return Err(preview.error);
      }
      var value := ReadConfigValue(state).value;
      var root := value.entries;
      var layout := LayoutRecord(value);
      root := root - {"ui"};
      if layout.Some? {
        root := root["ui" := Table(map["layout" := layout.value])];
      }
      assert root == WithoutProfile(value.entries, layout);
      state := Replaced(state, Table(root), write);
      r := if write == Durable then Ok(preview.value.1) else Err(WriteFailed(write.error));
    }
  }

  method ParseLayoutPreferences(record: Option<Value>) returns (layout: Layout, diagnostics: seq<Diagnostic>)
    ensures (layout, diagnostics) == ParseLayout(record)
  {
    match record {
      case Some(Table(table)) =>
        var (sidebar, odd) := ParseSidebar(table);
        var hidden, odder := ParseHiddenSegments(table);
        return Layout(sidebar, hidden), odd + odder;
      case _ => return DEFAULT_LAYOUT, [];
    }
  }

  // ---- Save, then resolve ----

  /** A layout that was saved is the layout that is read, with nothing left to
      complain about, whatever was stored before. */
  lemma SavedLayoutResolves(state: FileState, patch: LayoutPatch)
    requires SaveLayoutIn(state, patch).Ok?
    ensures var (value, saved) := SaveLayoutIn(state, patch).value;
            ResolveLayoutIn(Document(value)) == Ok(LayoutState(saved.layout, true, []))
  {
    hide Validate, ParseLayout, WriteLayout, Bounded;
    var value := ReadConfigValue(state).value;
    var layout := ApplyLayoutPatch(ParseLayout(LayoutRecord(value)).0, patch);
    var ui := Entry(value.entries, "ui").entries;
    var table := Entry(ui, "layout").entries;
    WrittenLayoutParses(table, layout);
    PatchedLayoutIsBounded(LayoutRecord(value), patch);
    assert LayoutRecord(PutLayout(value, layout).value) == Some(Table(WriteLayout(table, layout)));
  }

  /** A `[ui.layout]` that is no table reads as the defaults, without a word,
      and no patch can be saved over it. */
  lemma OddLayoutReadsAsDefaults(root: Map, ui: Map, odd: Value, patch: LayoutPatch)
    requires !odd.Table? && Validate(patch) == None
    ensures var file := Document(Table(root["ui" := Table(ui["layout" := odd])]));
            && ResolveLayoutIn(file) == Ok(LayoutState(DEFAULT_LAYOUT, true, []))
            && SaveLayoutIn(file, patch) == Err(Config(KeyNotTable("ui.layout")))
  {
    hide Validate, WriteLayout;
  }

  /** A saved appearance is the one that is read, and resolves as promised. */
  lemma SavedAppearanceResolves(state: FileState, patch: Patch, client: Profile)
    requires SaveAppearanceIn(state, patch, client).Ok?
    ensures var (value, saved) := SaveAppearanceIn(state, patch, client).value;
            ResolveAppearanceIn(Document(value), None, client) == Ok(saved)
  {
    hide PatchTable, ParseTable, Resolve;
    var value := ReadConfigValue(state).value;
    var ui := Entry(value.entries, "ui").entries;
    EmptyTableIsDefault();
    PatchedTableParses(ui, patch);
  }

  lemma EmptyTableIsDefault()
    ensures ParseTable(map[]) == (CLIENT_DEFAULT, None)
  {
  }

  // ---- Two independent stores ----

  datatype Op =
    | SaveLayout(layoutPatch: LayoutPatch, write: Write)
    | ResetLayout(write: Write)
    | SaveAppearance(patch: Patch, client: Profile, write: Write)
    | ResetAppearance(cli: Option<Profile>, client: Profile, write: Write)

  predicate IsLayoutOp(op: Op) {
    op.SaveLayout? || op.ResetLayout?
  }

  /** The file after one command, refused or not. */
  function Step(state: FileState, op: Op): FileState {
    match op
    case SaveLayout(patch, write) =>
      (match SaveLayoutIn(state, patch) case Ok((value, _)) => Replaced(state, value, write) case Err(_) => state)
    case ResetLayout(write) =>
      (match ResetLayoutIn(state) case Ok(value) => Replaced(state, value, write) case Err(_) => state)
    case SaveAppearance(patch, client, write) =>
      (match SaveAppearanceIn(state, patch, client)
       case Ok((value, _)) => Replaced(state, value, write)
       case Err(_) => state)
    case ResetAppearance(cli, client, write) =>
      (match ResetAppearanceIn(state, cli, client)
       case Ok((value, _)) => Replaced(state, value, write)
       case Err(_) => state)
  }

  function Run(state: FileState, ops: seq<Op>): FileState {
    if ops == [] then state else Step(Run(state, ops[..|ops| - 1]), ops[|ops| - 1])
  }

  /** One record seen alone: a file may be unreadable or oddly shaped, and then
      no command changes it. */
  datatype View<T> = Unreadable | OddRoot | OddUi | Plain(record: T)

  function LayoutView(state: FileState): View<Option<Value>> {
    match ReadConfigValue(state)
    case Err(_) => Unreadable
    case Ok(value) =>
      if !value.Table? then OddRoot
      else if !Entry(value.entries, "ui").Table? then OddUi
      else Plain(LayoutRecord(value))
  }

  function AppearanceView(state: FileState): View<Map> {
    match ReadConfigValue(state)
    case Err(_) => Unreadable
    case Ok(value) =>
      if !value.Table? then OddRoot
      else if !Entry(value.entries, "ui").Table? then OddUi
      else Plain(Fields(Entry(value.entries, "ui").entries))
  }

  /** A store that holds nothing but a layout record. */
  function LayoutStep(view: View<Option<Value>>, op: Op): View<Option<Value>> {
    if !view.Plain? || op.write.Refused? then view
    else match op
      case SaveLayout(patch, _) =>
        if Validate(patch).Some? || (view.record.Some? && !view.record.value.Table?) then view
        else
          var table := if view.record.Some? then view.record.value.entries else map[];
          Plain(Some(Table(WriteLayout(table, ApplyLayoutPatch(ParseLayout(view.record).0, patch)))))
      case ResetLayout(_) => Plain(None)
      case _ => view
  }

  /** A store that holds nothing but the five entries of a profile. */
  function AppearanceStep(view: View<Map>, op: Op): View<Map> {
    if !view.Plain? || op.write.Refused? then view
    else
      var (stored, complaint) := ParseTable(view.record);
      match op
      case SaveAppearance(patch, client, _) =>
        if complaint == None && Resolve(None, Some(ApplyPatch(stored, patch)), client).1
        then Plain(PatchTable(view.record, patch)) else view
      case ResetAppearance(cli, client, _) =>
        if complaint == None && Resolve(cli, None, client).1 then Plain(map[]) else view
      case _ => view
  }

  lemma LayoutOpsOnLayout(state: FileState, op: Op)
    requires IsLayoutOp(op)
    ensures LayoutView(Step(state, op)) == LayoutStep(LayoutView(state), op)
  {
    hide Validate, ParseLayout, WriteLayout;
  }

  lemma LayoutOpsOnAppearance(state: FileState, op: Op)
    requires IsLayoutOp(op)
    ensures AppearanceView(Step(state, op)) == AppearanceView(state)
  {
    hide Validate, ParseLayout, WriteLayout, Fields;
    match ReadConfigValue(state)
    case Err(_) =>
    case Ok(value) =>
      if value.Table? && Entry(value.entries, "ui").Table? {
        var ui := Entry(value.entries, "ui").entries;
        if op.SaveLayout? {
          var layout := ApplyLayoutPatch(ParseLayout(LayoutRecord(value)).0, op.layoutPatch);
          var table := Entry(ui, "layout");
          if table.Table? {
            LayoutIsNoField(ui, Table(WriteLayout(table.entries, layout)));
          }
        } else {
          LayoutIsNoField(ui, Table(map[]));
        }
      }
  }

  lemma LayoutIsNoField(table: Map, record: Value)
    ensures Fields(table["layout" := record]) == Fields(table) == Fields(table - {"layout"})
    ensures "layout" !in KEYS
  {
    assert "layout" !in KEYS by { assert "layout"[1] == 'a'; }
  }

  lemma AppearanceOpsOnLayout(state: FileState, op: Op)
    requires !IsLayoutOp(op)
    ensures LayoutView(Step(state, op)) == LayoutView(state)
  {
    hide PersistedProfile, Resolve, PatchTable;
    match ReadConfigValue(state)
    case Err(_) =>
    case Ok(value) =>
      if op.SaveAppearance? && value.Table? && Entry(value.entries, "ui").Table? {
        LayoutIsNoField(map[], Table(map[]));
        PatchKeepsExtra(Entry(value.entries, "ui").entries, op.patch, "layout");
      } else if op.ResetAppearance? {
        ResetKeepsLayout(state, op);
      }
  }

  lemma ResetKeepsLayout(state: FileState, op: Op)
    requires op.ResetAppearance?
    ensures LayoutView(Step(state, op)) == LayoutView(state)
  {
    hide Resolve, ParseTable;
  }

  lemma PatchFields(table: Map, patch: Patch)
    ensures Fields(PatchTable(table, patch)) == PatchTable(Fields(table), patch)
  {
    hide PatchField, Fields, LocaleName, SkinName, ModeName, DensityName, MotionName;
    var t := table;
    PatchOneField(t, "locale", patch.locale, LocaleName);
    t := PatchField(t, "locale", patch.locale, LocaleName);
    PatchOneField(t, "skin", patch.skin, SkinName);
    t := PatchField(t, "skin", patch.skin, SkinName);
    PatchOneField(t, "mode", patch.mode, ModeName);
    t := PatchField(t, "mode", patch.mode, ModeName);
    PatchOneField(t, "density", patch.density, DensityName);
    t := PatchField(t, "density", patch.density, DensityName);
    PatchOneField(t, "motion", patch.motion, MotionName);
  }

  lemma PatchOneField<T>(table: Map, key: string, field: Option<T>, name: T -> string)
    requires key in KEYS
    ensures Fields(PatchField(table, key, field, name)) == PatchField(Fields(table), key, field, name)
  {
  }

  lemma AppearanceOpsOnAppearance(state: FileState, op: Op)
    requires !IsLayoutOp(op)
    ensures AppearanceView(Step(state, op)) == AppearanceStep(AppearanceView(state), op)
  {
    hide ParseTable, Resolve, PatchTable, Fields;
    match ReadConfigValue(state)
    case Err(_) =>
    case Ok(value) =>
      if value.Table? && Entry(value.entries, "ui").Table? {
        var ui := Entry(value.entries, "ui").entries;
        EmptyTableIsDefault();
        ParseReadsFields(ui);
        NoFields(LayoutRecord(value));
        if op.SaveAppearance? {
          PatchFields(ui, op.patch);
        }
      }
  }

  lemma NoFields(record: Option<Value>)
    ensures Fields(map[]) == map[]
    ensures record.Some? ==> Fields(map["layout" := record.value]) == map[]
  {
    assert "layout" !in KEYS by { assert "layout"[1] == 'a'; }
  }

  function LayoutFold(view: View<Option<Value>>, ops: seq<Op>): View<Option<Value>> {
    if ops == [] then view else LayoutStep(LayoutFold(view, ops[..|ops| - 1]), ops[|ops| - 1])
  }

  function AppearanceFold(view: View<Map>, ops: seq<Op>): View<Map> {
    if ops == [] then view else AppearanceStep(AppearanceFold(view, ops[..|ops| - 1]), ops[|ops| - 1])
  }

  function Only(ops: seq<Op>, layout: bool): seq<Op> {
    if ops == [] then []
    else
      var last := ops[|ops| - 1];
      Only(ops[..|ops| - 1], layout) + if IsLayoutOp(last) == layout then [last] else []
  }

  /** Over any run of commands, from any file, each record is exactly what its
      own commands alone would have made of it in a store of its own. */
  lemma {:induction false} RecordsDoNotDisturbEachOther(state: FileState, ops: seq<Op>)
    ensures LayoutView(Run(state, ops)) == LayoutFold(LayoutView(state), Only(ops, true))
    ensures AppearanceView(Run(state, ops)) == AppearanceFold(AppearanceView(state), Only(ops, false))
  {
    hide Step, LayoutStep, AppearanceStep, LayoutView, AppearanceView;
    if ops != [] {
      var n := |ops| - 1;
      RecordsDoNotDisturbEachOther(state, ops[..n]);
      var before := Run(state, ops[..n]);
      OnlyStep(ops, true);
      OnlyStep(ops, false);
      if IsLayoutOp(ops[n]) {
        LayoutOpsOnLayout(before, ops[n]);
        LayoutOpsOnAppearance(before, ops[n]);
      } else {
        AppearanceOpsOnLayout(before, ops[n]);
        AppearanceOpsOnAppearance(before, ops[n]);
      }
    }
  }

  lemma OnlyStep(ops: seq<Op>, layout: bool)
    requires ops != []
    ensures var n := |ops| - 1;
            if IsLayoutOp(ops[n]) == layout
            then Only(ops, layout) != [] && Only(ops, layout)[..|Only(ops, layout)| - 1] == Only(ops[..n], layout)
                 && Only(ops, layout)[|Only(ops, layout)| - 1] == ops[n]
            else Only(ops, layout) == Only(ops[..n], layout)
  {
  }

  // ---- What else a command touches ----

  /** No command touches another section of the file. */
  lemma {:induction false} OtherSectionsKept(state: FileState, ops: seq<Op>, key: string)
    requires key != "ui"
    ensures var before, after := ReadConfigValue(state), ReadConfigValue(Run(state, ops));
            && before.Ok? == after.Ok?
            && (before.Ok? ==> Get(after.value, key) == Get(before.value, key))
  {
    hide Step;
    if ops != [] {
      OtherSectionsKept(state, ops[..|ops| - 1], key);
      SectionKept(Run(state, ops[..|ops| - 1]), ops[|ops| - 1], key);
    }
  }

  lemma SectionKept(state: FileState, op: Op, key: string)
    requires key != "ui"
    ensures var before, after := ReadConfigValue(state), ReadConfigValue(Step(state, op));
            && before.Ok? == after.Ok?
            && (before.Ok? ==> Get(after.value, key) == Get(before.value, key))
  {
    hide PersistedProfile, Resolve, PatchTable, Validate, ParseLayout, WriteLayout, LayoutRecord;
  }

  /** An entry of `[ui]` that belongs to neither record. */
  function Extra(state: FileState, key: string): Option<Value> {
    match ReadConfigValue(state)
    case Err(_) => None
    case Ok(value) => match Get(value, "ui") case Some(ui) => Get(ui, key) case None => None
  }

  /** Such an entry survives every command but a reset of the appearance. */
  lemma ExtrasKept(state: FileState, op: Op, key: string)
    requires key !in KEYS && key != "layout"
    ensures var dropped := op.ResetAppearance? && !op.write.Refused? &&
                           ResetAppearanceIn(state, op.cli, op.client).Ok?;
            Extra(Step(state, op), key) == if dropped then None else Extra(state, key)
  {
    hide PersistedProfile, Resolve, PatchTable, Validate, ParseLayout, WriteLayout;
    match ReadConfigValue(state)
    case Err(_) =>
    case Ok(value) =>
      if op.SaveAppearance? && value.Table? && Entry(value.entries, "ui").Table? {
        PatchKeepsExtra(Entry(value.entries, "ui").entries, op.patch, key);
      }
  }

  lemma PatchKeepsExtra(table: Map, patch: Patch, key: string)
    requires key !in KEYS
    ensures Get(Table(PatchTable(table, patch)), key) == Get(Table(table), key)
  {
    hide LocaleName, SkinName, ModeName, DensityName, MotionName;
  }

  /** A valid patch is saved exactly when the file can be read and its root, its
      `[ui]` and its `[ui.layout]` are tables or absent. */
  lemma SaveLayoutSucceedsExactly(state: FileState, patch: LayoutPatch)
    requires Validate(patch) == None
    ensures SaveLayoutIn(state, patch).Ok? <==>
            match LayoutView(state)
            case Plain(record) => record.None? || record.value.Table?
            case _ => false
  {
    hide Validate, ParseLayout, WriteLayout;
  }

  /** A layout save leaves the persisted profile alone exactly when the file
      already had a `[ui]`: it creates one otherwise, and an absent profile
      becomes the built-in one. */
  lemma LayoutSaveKeepsProfile(state: FileState, patch: LayoutPatch)
    requires SaveLayoutIn(state, patch).Ok?
    ensures var before, after := ReadConfigValue(state).value, SaveLayoutIn(state, patch).value.0;
            && (PersistedProfile(after) == PersistedProfile(before) <==> Get(before, "ui").Some?)
            && (Get(before, "ui") == None ==> PersistedProfile(after) == (Some(CLIENT_DEFAULT), None))
  {
    hide Validate, ParseLayout, WriteLayout, ParseTable, Fields;
    var before := ReadConfigValue(state).value;
    var ui := Entry(before.entries, "ui").entries;
    var layout := ApplyLayoutPatch(ParseLayout(LayoutRecord(before)).0, patch);
    var record := Table(WriteLayout(Entry(ui, "layout").entries, layout));
    EmptyTableIsDefault();
    LayoutIsNoField(ui, record);
    ParseReadsFields(ui);
    ParseReadsFields(ui["layout" := record]);
  }

  /** On a missing file the profile appears out of nowhere. */
  lemma LayoutSaveMakesProfile()
    ensures var patch := LayoutPatch(Some(Pinned), None);
            && SaveLayoutIn(Missing, patch).Ok?
            && PersistedProfile(ReadConfigValue(Missing).value) == (None, None)
            && PersistedProfile(SaveLayoutIn(Missing, patch).value.0) == (Some(CLIENT_DEFAULT), None)
  {
    hide ParseLayout, WriteLayout, ParseTable;
    LayoutSaveKeepsProfile(Missing, LayoutPatch(Some(Pinned), None));
  }

  /** A reset of the appearance drops a key it does not know. */
  lemma ResetDropsUnknownKey(client: Profile, value: Value)
    requires Resolve(None, None, client).1
    ensures var file := Document(Table(map["ui" := Table(map["font" := value])]));
            && Extra(file, "font") == Some(value)
            && Extra(Step(file, ResetAppearance(None, client, Durable)), "font") == None
  {
    hide Resolve, ParseTable;
    var table: Map := map["font" := value];
    assert "font" !in KEYS && "font" != "layout" by {
      assert |"font"| == 4 && "mode"[0] != "font"[0] && "skin"[0] != "font"[0];
    }
    ParseReadsFields(table);
    assert Fields(table) == map[];
    EmptyTableIsDefault();
    ExtrasKept(Document(Table(map["ui" := Table(table)])), ResetAppearance(None, client, Durable), "font");
  }

  /** A save that reports an error may be on disk: the directory could not be
      synced after the file was replaced. */
  lemma FailedSaveMayBeOnDisk(client: Profile, error: string)
    requires Resolve(None, Some(CLIENT_DEFAULT.(density := Compact)), client).1
    ensures var patch := Patch(None, None, None, Some(Compact), None);
            var write := Unsynced(error);
            && SaveAppearanceIn(Missing, patch, client).Ok?
            && AppearanceReply(SaveAppearanceIn(Missing, patch, client).value.1, write).Err?
            && Step(Missing, SaveAppearance(patch, client, write)) ==
               Document(Table(map["ui" := Table(map["density" := Str("compact")])]))
  {
    hide Resolve, ParseTable, ParseField;
    var patch := Patch(None, None, None, Some(Compact), None);
    assert ApplyPatch(CLIENT_DEFAULT, patch) == CLIENT_DEFAULT.(density := Compact);
    assert PatchTable(map[], patch) == map["density" := Str("compact")];
  }

  /** The difference shows only in a client whose own defaults are not the
      built-in ones. */
  lemma BuiltInProfileShows(client: Profile)
    requires Resolve(None, None, client).1
    ensures Resolve(None, Some(CLIENT_DEFAULT), client) == Resolve(None, None, client) <==>
            client.skin == Aurora && client.density == Regular && client.motion == SystemMotion
  {
  }
}
