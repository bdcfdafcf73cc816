/** The appearance record: how `[ui]` is read, patched and resolved. */
module UiAppearance {
  import opened Toml
  import opened Wrappers

  datatype Locale = SystemLocale | En | ZhCn
  datatype Skin = Aurora | Ice | Mono | Amber | Phosphor
  datatype Mode = SystemMode | Dark | Light
  datatype Density = Compact | Regular | Comfy
  datatype Motion = SystemMotion | Reduced | Full

  datatype Profile = Profile(locale: Locale, skin: Skin, mode: Mode, density: Density, motion: Motion)

  const CLIENT_DEFAULT := Profile(SystemLocale, Aurora, SystemMode, Regular, SystemMotion)

  datatype Patch = Patch(
    locale: Option<Locale>,
    skin: Option<Skin>,
    mode: Option<Mode>,
    density: Option<Density>,
    motion: Option<Motion>)

  datatype Diagnostic = Diagnostic(code: string, key: string, field: string, rejected: Option<string>)

  // ---- Names in the file ----

  function ReadLocale(text: string): Option<Locale> {
    if text == "system" then Some(SystemLocale)
    else if text == "en" then Some(En)
    else if text == "zh-CN" || text == "zh_CN" || text == "zh-Hans-CN" then Some(ZhCn)
    else None
  }

  function LocaleName(locale: Locale): (text: string)
    ensures ReadLocale(text) == Some(locale)
  {
    match locale case SystemLocale => "system" case En => "en" case ZhCn => "zh-CN"
  }

  function ReadSkin(text: string): Option<Skin> {
    if text == "aurora" then Some(Aurora)
    else if text == "ice" then Some(Ice)
    else if text == "mono" then Some(Mono)
    else if text == "amber" then Some(Amber)
    else if text == "phosphor" then Some(Phosphor)
    else None
  }

  function SkinName(skin: Skin): (text: string)
    ensures ReadSkin(text) == Some(skin)
  {
    match skin
    case Aurora => "aurora"
    case Ice => "ice"
    case Mono => "mono"
    case Amber => "amber"
    case Phosphor => "phosphor"
  }

  function ReadMode(text: string): Option<Mode> {
    if text == "system" then Some(SystemMode)
    else if text == "dark" then Some(Dark)
    else if text == "light" then Some(Light)
    else None
  }

  function ModeName(mode: Mode): (text: string)
    ensures ReadMode(text) == Some(mode)
  {
    match mode case SystemMode => "system" case Dark => "dark" case Light => "light"
  }

  function ReadDensity(text: string): Option<Density> {
    if text == "compact" then Some(Compact)
    else if text == "regular" then Some(Regular)
    else if text == "comfy" then Some(Comfy)
    else None
  }

  function DensityName(density: Density): (text: string)
    ensures ReadDensity(text) == Some(density)
  {
    match density case Compact => "compact" case Regular => "regular" case Comfy => "comfy"
  }

  function ReadMotion(text: string): Option<Motion> {
    if text == "system" then Some(SystemMotion)
    else if text == "reduced" then Some(Reduced)
    else if text == "full" then Some(Full)
    else None
  }

  function MotionName(motion: Motion): (text: string)
    ensures ReadMotion(text) == Some(motion)
  {
    match motion case SystemMotion => "system" case Reduced => "reduced" case Full => "full"
  }

  // ---- Reading ----

  function Kind(value: Value): string {
    match value
    case Str(_) => "string"
    case Integer(_) => "integer"
    case Float(_) => "float"
    case Boolean(_) => "boolean"
    case Datetime(_) => "datetime"
    case Array(_) => "array"
    case Table(_) => "table"
  }

  /** A field and what is wrong with it; a missing field is its default. */
  function ParseField<T>(table: Map, key: string, read: string -> Option<T>, default: T): (T, Option<Diagnostic>) {
    if key !in table then (default, None)
    else match table[key]
      case Str(text) =>
        (match read(text)
         case Some(field) => (field, None)
         case None => (default, Some(Diagnostic("ui.invalid_value", key, "ui." + key, Some(text)))))
      case other => (default, Some(Diagnostic("ui.invalid_type", key, "ui." + key, Some(Kind(other)))))
  }

  function FirstOf<T>(first: Option<T>, second: Option<T>): Option<T> {
    if first.Some? then first else second
  }

  /** The profile of a `[ui]` table, with the first complaint about it. */
  function ParseTable(table: Map): (Profile, Option<Diagnostic>) {
    var (locale, d0) := ParseField(table, "locale", ReadLocale, SystemLocale);
    var (skin, d1) := ParseField(table, "skin", ReadSkin, Aurora);
    var (mode, d2) := ParseField(table, "mode", ReadMode, SystemMode);
    var (density, d3) := ParseField(table, "density", ReadDensity, Regular);
    var (motion, d4) := ParseField(table, "motion", ReadMotion, SystemMotion);
    (Profile(locale, skin, mode, density, motion), FirstOf(d0, FirstOf(d1, FirstOf(d2, FirstOf(d3, d4)))))
  }

  /** The stored profile, if there is a `[ui]`, and the complaint about it. */
  function PersistedProfile(value: Value): (Option<Profile>, Option<Diagnostic>) {
    match Get(value, "ui")
    case None => (None, None)
    case Some(Table(table)) => var (profile, diagnostic) := ParseTable(table); (Some(profile), diagnostic)
    case Some(other) =>
      (Some(CLIENT_DEFAULT), Some(Diagnostic("ui.invalid_type", "ui", "ui", Some(Kind(other)))))
  }

  const KEYS := {"locale", "skin", "mode", "density", "motion"}

  /** The part of a table that the appearance record is made of. */
  function Fields(table: Map): Map {
    map key | key in table && key in KEYS :: table[key]
  }

  /** Only those five entries are read. */
  lemma ParseReadsFields(table: Map)
    ensures ParseTable(Fields(table)) == ParseTable(table)
  {
  }

  // ---- Writing ----

  function ApplyPatch(profile: Profile, patch: Patch): Profile {
    Profile(patch.locale.GetOr(profile.locale), patch.skin.GetOr(profile.skin), patch.mode.GetOr(profile.mode),
            patch.density.GetOr(profile.density), patch.motion.GetOr(profile.motion))
  }

  function PatchField<T>(table: Map, key: string, field: Option<T>, name: T -> string): Map {
    match field case Some(choice) => table[key := Str(name(choice))] case None => table
  }

  function PatchTable(table: Map, patch: Patch): Map {
    var t := PatchField(table, "locale", patch.locale, LocaleName);
    var t := PatchField(t, "skin", patch.skin, SkinName);
    var t := PatchField(t, "mode", patch.mode, ModeName);
    var t := PatchField(t, "density", patch.density, DensityName);
    PatchField(t, "motion", patch.motion, MotionName)
  }

  /** Reading a patched table gives the patched profile, field by field, and
      nothing to complain about. */
  lemma PatchedTableParses(table: Map, patch: Patch)
    requires ParseTable(table).1 == None
    ensures ParseTable(PatchTable(table, patch)) == (ApplyPatch(ParseTable(table).0, patch), None)
  {
    hide ReadLocale, ReadSkin, ReadMode, ReadDensity, ReadMotion, Kind;
    hide LocaleName, SkinName, ModeName, DensityName, MotionName;
    LocalePatched(table, patch);
    SkinPatched(table, patch);
    ModePatched(table, patch);
    DensityPatched(table, patch);
    MotionPatched(table, patch);
    hide PatchTable, ParseField;
  }

  /** What a patched field reads as. */
  function Patched<T>(before: (T, Option<Diagnostic>), field: Option<T>): (T, Option<Diagnostic>) {
    match field case Some(choice) => (choice, None) case None => before
  }

  lemma LocalePatched(table: Map, patch: Patch)
    ensures ParseField(PatchTable(table, patch), "locale", ReadLocale, SystemLocale) ==
            Patched(ParseField(table, "locale", ReadLocale, SystemLocale), patch.locale)
  {
    hide ReadLocale, Kind, SkinName, ModeName, DensityName, MotionName, LocaleName;
    if patch.locale.Some? {
      assert ReadLocale(LocaleName(patch.locale.value)) == patch.locale;
    }
  }

  lemma SkinPatched(table: Map, patch: Patch)
    ensures ParseField(PatchTable(table, patch), "skin", ReadSkin, Aurora) ==
            Patched(ParseField(table, "skin", ReadSkin, Aurora), patch.skin)
  {
    hide ReadSkin, Kind, SkinName, ModeName, DensityName, MotionName, LocaleName;
    if patch.skin.Some? {
      assert ReadSkin(SkinName(patch.skin.value)) == patch.skin;
    }
  }

  lemma ModePatched(table: Map, patch: Patch)
    ensures ParseField(PatchTable(table, patch), "mode", ReadMode, SystemMode) ==
            Patched(ParseField(table, "mode", ReadMode, SystemMode), patch.mode)
  {
    hide ReadMode, Kind, SkinName, ModeName, DensityName, MotionName, LocaleName;
    if patch.mode.Some? {
      assert ReadMode(ModeName(patch.mode.value)) == patch.mode;
    }
  }

  lemma DensityPatched(table: Map, patch: Patch)
    ensures ParseField(PatchTable(table, patch), "density", ReadDensity, Regular) ==
            Patched(ParseField(table, "density", ReadDensity, Regular), patch.density)
  {
    hide ReadDensity, Kind, SkinName, ModeName, DensityName, MotionName, LocaleName;
    if patch.density.Some? {
      assert ReadDensity(DensityName(patch.density.value)) == patch.density;
    }
  }

  lemma MotionPatched(table: Map, patch: Patch)
    ensures ParseField(PatchTable(table, patch), "motion", ReadMotion, SystemMotion) ==
            Patched(ParseField(table, "motion", ReadMotion, SystemMotion), patch.motion)
  {
    hide ReadMotion, Kind, SkinName, ModeName, DensityName, MotionName, LocaleName;
    if patch.motion.Some? {
      assert ReadMotion(MotionName(patch.motion.value)) == patch.motion;
    }
  }

  // ---- Resolving ----

  predicate ValidPair(skin: Skin, mode: Mode) {
    match skin
    case Amber => mode == Dark
    case Phosphor => mode == Dark
    case _ => mode != SystemMode
  }

  function EffectiveLocale(requested: Locale, client: Locale): Locale {
    if requested != SystemLocale then requested else if client != SystemLocale then client else En
  }

  function EffectiveMode(requested: Mode, client: Mode): Mode {
    if requested != SystemMode then requested else if client != SystemMode then client else Dark
  }

  /** What a client renders, and whether that pair of skin and mode exists.

      The command line is asked first, then the user, then the client. A locale
      or mode they name is the one rendered; for `system` the client's own
      decides, and failing that English and dark. Only amber and phosphor in
      the light are refused, which costs skin, mode and density. */
  function Resolve(cli: Option<Profile>, user: Option<Profile>, client: Profile): (resolved: (Profile, bool))
    ensures resolved.0.locale != SystemLocale && ValidPair(resolved.0.skin, resolved.0.mode)
    ensures var asked := if cli.Some? then cli.value else if user.Some? then user.value else client;
            var (shown, valid) := resolved;
            && (asked.locale in {En, ZhCn} ==> shown.locale == asked.locale)
            && (asked.locale == SystemLocale && client.locale in {En, ZhCn} ==> shown.locale == client.locale)
            && (asked.locale == client.locale == SystemLocale ==> shown.locale == En)
            && shown.motion == asked.motion
            && (!valid <==> asked.skin in {Amber, Phosphor}
                            && (asked.mode == Light || (asked.mode == SystemMode && client.mode == Light)))
            && (!valid ==> (shown.skin, shown.mode, shown.density) == (Aurora, Dark, Regular))
            && (valid ==>
                  && shown.skin == asked.skin && shown.density == asked.density
                  && (asked.mode in {Dark, Light} ==> shown.mode == asked.mode)
                  && (asked.mode == SystemMode && client.mode in {Dark, Light} ==> shown.mode == client.mode)
                  && (asked.mode == client.mode == SystemMode ==> shown.mode == Dark))
  {
    var requested := FirstOf(cli, user).GetOr(client);
    var locale := EffectiveLocale(requested.locale, client.locale);
    var mode := EffectiveMode(requested.mode, client.mode);
    if ValidPair(requested.skin, mode)
    then (Profile(locale, requested.skin, mode, requested.density, requested.motion), true)
    else (Profile(locale, Aurora, Dark, Regular, requested.motion), false)
  }
}
