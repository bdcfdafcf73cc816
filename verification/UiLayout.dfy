/** The layout record: how `[ui.layout]` is read, patched and written. */
module UiLayout {
  import opened Text
  import Utf8
  import opened Toml
  import opened Wrappers
  import opened UiAppearance

  const MAX_HIDDEN_STATUSBAR_SEGMENTS: nat := 16
  const MAX_HIDDEN_STATUSBAR_SEGMENT_BYTES: nat := 64

  datatype SidebarMode = Pinned | Floating

  datatype Layout = Layout(sidebar: SidebarMode, hidden: seq<string>)

  const DEFAULT_LAYOUT := Layout(Floating, [])

  datatype LayoutPatch = LayoutPatch(sidebar: Option<SidebarMode>, hidden: Option<seq<string>>)

  // ---- Validation ----

  datatype Rejection = TooMany | EmptyName | TooLong(name: string) | ControlCharacter

  predicate IsControl(c: char) {
    c < ' ' || '\U{7f}' <= c <= '\U{9f}'
  }

  function RejectName(name: string): Option<Rejection> {
    if IsBlank(name) then Some(EmptyName)
    else if |Utf8.Encode(name)| > MAX_HIDDEN_STATUSBAR_SEGMENT_BYTES then Some(TooLong(name))
    else if exists i | 0 <= i < |name| :: IsControl(name[i]) then Some(ControlCharacter)
    else None
  }

  /** The complaint about the first bad name. */
  function RejectNames(names: seq<string>): Option<Rejection> {
    if names == [] then None else FirstOf(RejectName(names[0]), RejectNames(names[1..]))
  }

  function Validate(patch: LayoutPatch): Option<Rejection> {
    match patch.hidden
    case None => None
    case Some(names) => if |names| > MAX_HIDDEN_STATUSBAR_SEGMENTS then Some(TooMany) else RejectNames(names)
  }

  /** A name the status bar can show. */
  predicate Acceptable(name: string) {
    && (exists k | 0 <= k < |name| :: !IsWhitespace(name[k]))
    && |Utf8.Encode(name)| <= 64
    && forall k | 0 <= k < |name| :: '\U{20}' <= name[k] < '\U{7f}' || '\U{a0}' <= name[k]
  }

  /** Is this what is wrong with the name? Emptiness goes before length, and
      length before control characters. */
  predicate Complains(rejection: Rejection, name: string) {
    match rejection
    case TooMany => false
    case EmptyName => forall k | 0 <= k < |name| :: IsWhitespace(name[k])
    case TooLong(long) =>
      long == name && |Utf8.Encode(name)| > 64 && exists k | 0 <= k < |name| :: !IsWhitespace(name[k])
    case ControlCharacter =>
      && !Acceptable(name) && |Utf8.Encode(name)| <= 64 && exists k | 0 <= k < |name| :: !IsWhitespace(name[k])
  }

  lemma NameIsRejected(name: string)
    ensures RejectName(name) == None <==> Acceptable(name)
    ensures forall rejection :: RejectName(name) == Some(rejection) <==> Complains(rejection, name)
  {
  }

  lemma {:induction false} NamesAreRejected(names: seq<string>)
    ensures RejectNames(names) == None <==> forall i | 0 <= i < |names| :: Acceptable(names[i])
    ensures forall rejection ::
              RejectNames(names) == Some(rejection) <==>
              exists i | 0 <= i < |names| ::
                Complains(rejection, names[i]) && forall j | 0 <= j < i :: Acceptable(names[j])
  {
    hide RejectName, Acceptable, Complains;
    if names != [] {
      NameIsRejected(names[0]);
      NamesAreRejected(names[1..]);
    }
  }

  /** Accepted are exactly the patches that leave the list alone, and those with
      at most sixteen names, all acceptable. Of the others, too long a list is
      refused as such, and otherwise the first bad name is what is said. */
  lemma PatchIsAcceptedExactly(patch: LayoutPatch)
    ensures Validate(patch) == None <==>
            patch.hidden.Some? ==>
              var names := patch.hidden.value;
              |names| <= 16 && forall i | 0 <= i < |names| :: Acceptable(names[i])
    ensures forall rejection ::
              Validate(patch) == Some(rejection) <==>
              && patch.hidden.Some?
              && var names := patch.hidden.value;
                 if |names| > 16 then rejection == TooMany
                 else exists i | 0 <= i < |names| ::
                   Complains(rejection, names[i]) && forall j | 0 <= j < i :: Acceptable(names[j])
  {
    hide RejectNames, Acceptable, Complains;
    if patch.hidden.Some? {
      NamesAreRejected(patch.hidden.value);
    }
  }

  method CheckPatch(patch: LayoutPatch) returns (rejection: Option<Rejection>)
    ensures rejection == Validate(patch)
  {
    if patch.hidden == None {
      return None;
    }
    var names := patch.hidden.value;
    if |names| > MAX_HIDDEN_STATUSBAR_SEGMENTS {
      return Some(TooMany);
    }
    for i := 0 to |names|
      invariant RejectNames(names) == RejectNames(names[i..])
    {
      rejection := RejectName(names[i]);
      if rejection.Some? {
        return rejection;
      }
    }
    return None;
  }

  // ---- Reading ----

  function Invalid(field: string, rejected: string): Diagnostic {
    Diagnostic("ui.layout.invalid_value", "ui.layout", "ui.layout." + field, Some(rejected))
  }

  const SIDEBAR := "lane_sidebar_mode"
  const HIDDEN := "hidden_statusbar_segments"

  function ParseSidebar(table: Map): (SidebarMode, seq<Diagnostic>) {
    if SIDEBAR !in table then (Floating, [])
    else match table[SIDEBAR]
      case Str(text) =>
        if text == "pinned" then (Pinned, [])
        else if text == "floating" then (Floating, [])
        else (Floating, [Invalid(SIDEBAR, text)])
      case other => (Floating, [Invalid(SIDEBAR, Kind(other))])
  }

  /** The names in a stored list. */
  function Names(items: seq<Value>): seq<string> {
    if items == [] then []
    else
      var last := items[|items| - 1];
      Names(items[..|items| - 1]) + if last.Str? then [last.text] else []
  }

  /** A complaint for each item that is no name. */
  function Oddities(items: seq<Value>): seq<Diagnostic> {
    if items == [] then []
    else
      var last := items[|items| - 1];
      Oddities(items[..|items| - 1]) + if last.Str? then [] else [Invalid(HIDDEN, Kind(last))]
  }

  function Bounded(names: seq<string>): seq<string> {
    if |names| <= MAX_HIDDEN_STATUSBAR_SEGMENTS then names else names[..MAX_HIDDEN_STATUSBAR_SEGMENTS]
  }

  function ParseHidden(table: Map): (seq<string>, seq<Diagnostic>) {
    if HIDDEN !in table then ([], [])
    else match table[HIDDEN]
      case Array(items) => (Bounded(Names(items)), Oddities(items))
      case other => ([], [Invalid(HIDDEN, Kind(other))])
  }

  method ParseHiddenSegments(table: Map) returns (segments: seq<string>, diagnostics: seq<Diagnostic>)
    ensures (segments, diagnostics) == ParseHidden(table)
  {
    segments, diagnostics := [], [];
    if HIDDEN !in table {
      return;
    }
    if !table[HIDDEN].Array? {
      return [], [Invalid(HIDDEN, Kind(table[HIDDEN]))];
    }
    var items := table[HIDDEN].items;
    for i := 0 to |items|
      invariant segments == Names(items[..i]) && diagnostics == Oddities(items[..i])
    {
      assert items[..i + 1][..i] == items[..i];
      if items[i].Str? {
        segments := segments + [items[i].text];
      } else {
        diagnostics := diagnostics + [Invalid(HIDDEN, Kind(items[i]))];
      }
    }
    assert items[..|items|] == items;
    segments := Bounded(segments);
  }

  /** A bad field costs that field; a record that is no table costs them all,
      without complaint. */
  function ParseLayout(record: Option<Value>): (Layout, seq<Diagnostic>) {
    match record
    case Some(Table(table)) =>
      var (sidebar, d0) := ParseSidebar(table);
      var (hidden, d1) := ParseHidden(table);
      (Layout(sidebar, hidden), d0 + d1)
    case _ => (DEFAULT_LAYOUT, [])
  }

  /** Is this a mode the sidebar has? */
  predicate NamesMode(value: Value) {
    value == Str("pinned") || value == Str("floating")
  }

  lemma FieldsAreApart(table: Map, bad: Value)
    ensures ParseHidden(table[SIDEBAR := bad]) == ParseHidden(table)
    ensures ParseSidebar(table[HIDDEN := bad]) == ParseSidebar(table)
    ensures !NamesMode(bad) ==>
              var (mode, diagnostics) := ParseSidebar(table[SIDEBAR := bad]);
              mode == Floating && |diagnostics| == 1 && diagnostics[0].field == "ui.layout.lane_sidebar_mode"
    ensures !bad.Array? ==> ParseHidden(table[HIDDEN := bad]) == ([], [Invalid(HIDDEN, Kind(bad))])
  {
    hide Names, Oddities, Bounded, Kind;
    assert SIDEBAR[0] != HIDDEN[0];
  }

  /** Whatever else the table holds: a bad sidebar mode falls back to the default
      and adds one diagnostic, a bad list falls back to none and adds one, and
      neither touches the other field or what is said about it. */
  lemma OneBadFieldCostsThatField(table: Map, bad: Value)
    ensures !NamesMode(bad) ==>
              var (layout, diagnostics) := ParseLayout(Some(Table(table[SIDEBAR := bad])));
              && layout == Layout(Floating, ParseHidden(table).0)
              && |diagnostics| == 1 + |ParseHidden(table).1| && diagnostics[1..] == ParseHidden(table).1
              && diagnostics[0].field == "ui.layout.lane_sidebar_mode"
    ensures !bad.Array? ==>
              var (layout, diagnostics) := ParseLayout(Some(Table(table[HIDDEN := bad])));
              && layout == Layout(ParseSidebar(table).0, [])
              && diagnostics == ParseSidebar(table).1 + [Invalid(HIDDEN, Kind(bad))]
  {
    hide ParseHidden, ParseSidebar, Kind;
    FieldsAreApart(table, bad);
    var hidden := ParseHidden(table).1;
    assert forall d: Diagnostic :: ([d] + hidden)[1..] == hidden;
  }

  lemma {:induction false} NamesConcat(a: seq<Value>, b: seq<Value>)
    ensures Names(a + b) == Names(a) + Names(b) && Oddities(a + b) == Oddities(a) + Oddities(b)
  {
    if b == [] {
      assert a + b == a;
    } else {
      var n := |b| - 1;
      assert (a + b)[..|a + b| - 1] == a + b[..n];
      NamesConcat(a, b[..n]);
    }
  }

  lemma BadItem(bad: Value)
    requires !bad.Str?
    ensures Names([bad]) == [] && Oddities([bad]) == [Invalid(HIDDEN, Kind(bad))]
  {
    hide Invalid, Kind;
    assert [bad][..0] == [];
  }

  /** An item of the list that is no name costs that item. */
  lemma OneBadItemCostsThatItem(before: seq<Value>, bad: Value, after: seq<Value>)
    requires !bad.Str?
    ensures Names(before + [bad] + after) == Names(before + after)
    ensures Oddities(before + [bad] + after) == Oddities(before) + [Invalid(HIDDEN, Kind(bad))] + Oddities(after)
  {
    hide Names, Oddities, Invalid, Kind;
    NamesConcat(before + [bad], after);
    NamesConcat(before, [bad]);
    NamesConcat(before, after);
    BadItem(bad);
    assert Names(before) + [] == Names(before);
  }

  // ---- Writing ----

  function ApplyLayoutPatch(layout: Layout, patch: LayoutPatch): Layout {
    Layout(patch.sidebar.GetOr(layout.sidebar), patch.hidden.GetOr(layout.hidden))
  }

  function Strings(names: seq<string>): (items: seq<Value>)
    ensures |items| == |names|
  {
    seq(|names|, i requires 0 <= i < |names| => Str(names[i]))
  }

  function WriteLayout(table: Map, layout: Layout): Map {
    table[SIDEBAR := Str(if layout.sidebar == Pinned then "pinned" else "floating")]
         [HIDDEN := Array(Strings(layout.hidden))]
  }

  lemma {:induction false} NamesOfStrings(names: seq<string>)
    ensures Names(Strings(names)) == names && Oddities(Strings(names)) == []
  {
    if names != [] {
      var n := |names| - 1;
      NamesOfStrings(names[..n]);
      assert Strings(names)[..n] == Strings(names[..n]);
      assert names == names[..n] + [names[n]];
    }
  }

  /** A written record reads back as it was, without complaint, if its list is
      within the bound: exactly then, for a longer one is cut. */
  lemma WrittenLayoutParses(table: Map, layout: Layout)
    ensures ParseLayout(Some(Table(WriteLayout(table, layout)))) ==
            (Layout(layout.sidebar, Bounded(layout.hidden)), [])
    ensures Bounded(layout.hidden) == layout.hidden <==> |layout.hidden| <= MAX_HIDDEN_STATUSBAR_SEGMENTS
  {
    hide Names, Oddities, Strings, Bounded, Invalid;
    NamesOfStrings(layout.hidden);
    BoundedFixes(layout.hidden);
    var written := WriteLayout(table, layout);
    assert SIDEBAR[0] != HIDDEN[0] && "pinned"[0] != "floating"[0];
    assert ParseSidebar(written) == (layout.sidebar, []);
    assert ParseHidden(written) == (Bounded(layout.hidden), []);
    var none: seq<Diagnostic> := [];
    assert none + none == none;
  }

  lemma BoundedFixes(names: seq<string>)
    ensures Bounded(names) == names <==> |names| <= MAX_HIDDEN_STATUSBAR_SEGMENTS
  {
  }

  /** What a save stores is always within the bound: a longer patch is refused,
      a longer stored list was cut on reading. */
  lemma PatchedLayoutIsBounded(record: Option<Value>, patch: LayoutPatch)
    requires Validate(patch) == None
    ensures var layout := ApplyLayoutPatch(ParseLayout(record).0, patch);
            |layout.hidden| <= MAX_HIDDEN_STATUSBAR_SEGMENTS
  {
    hide ParseSidebar, Names, Oddities, RejectNames;
  }
}
