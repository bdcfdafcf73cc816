/** The JSON lines of the durable job log: the escaper that writes them and the
    scanner that reads fields back without parsing or unescaping. */
module JobCodec {
  import opened Wrappers
  import opened Text

  // ---- Escaping ----

  predicate Special(c: char) {
    c == '\\' || c == '"' || c == '\n' || c == '\r' || c == '\t'
  }

  predicate Plain(s: string) {
    forall i | 0 <= i < |s| :: !Special(s[i])
  }

  function EscapeChar(c: char): string {
    match c
    case '\\' => "\\\\"
    case '"' => "\\\""
    case '\n' => "\\n"
    case '\r' => "\\r"
    case '\t' => "\\t"
    case other => [other]
  }

  function Escape(value: string): string {
    if value == [] then [] else EscapeChar(value[0]) + Escape(value[1..])
  }

  // ---- What an escaped value means to a JSON reader ----

  /** The character a two-character escape stands for (section 7 of RFC 8259). */
  function Meaning(c: char): Option<char> {
    match c
    case '"' => Some('"')
    case '\\' => Some('\\')
    case '/' => Some('/')
    case 'b' => Some('\U{8}')
    case 'f' => Some('\U{c}')
    case 'n' => Some('\n')
    case 'r' => Some('\r')
    case 't' => Some('\t')
    case _ => None
  }

  /** The text between the quotes of a JSON string, read back; the numeric
      escapes, which are never written, are not part of this model. */
  function Unescape(s: string): Option<string> {
    if s == [] then Some([])
    else if s[0] == '"' then None
    else if s[0] == '\\' then
      if |s| < 2 then None
      else match (Meaning(s[1]), Unescape(s[2..]))
        case (Some(c), Some(rest)) => Some([c] + rest)
        case _ => None
    else match Unescape(s[1..])
      case Some(rest) => Some([s[0]] + rest)
      case None => None
  }

  /** A JSON reader gets back exactly what was written. */
  lemma {:induction false} EscapeIsUndone(value: string)
    ensures Unescape(Escape(value)) == Some(value)
  {
    if value != [] {
      var c, rest := value[0], value[1..];
      EscapeIsUndone(rest);
      assert value == [c] + rest;
      if Special(c) {
        assert (EscapeChar(c) + Escape(rest))[2..] == Escape(rest);
      } else {
        assert (EscapeChar(c) + Escape(rest))[1..] == Escape(rest);
      }
    }
  }

  /** The control characters section 7 of RFC 8259 keeps out of strings. */
  predicate IsJsonControl(c: char) {
    c < ' '
  }

  predicate HasControl(s: string) {
    exists i | 0 <= i < |s| :: IsJsonControl(s[i])
  }

  /** What is written is a JSON string only if its other characters are: of the
      control characters, line feed, carriage return and tab are escaped and
      all others written as they are. */
  lemma {:induction false} EscapedIsJsonExactly(value: string)
    ensures HasControl(Escape(value)) <==>
            exists i | 0 <= i < |value| ::
              IsJsonControl(value[i]) && value[i] != '\n' && value[i] != '\r' && value[i] != '\t'
  {
    if value != [] {
      var c, rest := value[0], value[1..];
      EscapedIsJsonExactly(rest);
      var head, tail := EscapeChar(c), Escape(rest);
      assert HasControl(head + tail) <==> HasControl(head) || HasControl(tail) by {
        assert forall i | 0 <= i < |head| :: (head + tail)[i] == head[i];
        assert forall i | 0 <= i < |tail| :: (head + tail)[|head| + i] == tail[i];
      }
      assert HasControl(head) <==> IsJsonControl(c) && c != '\n' && c != '\r' && c != '\t' by {
        assert head[0] == if Special(c) then '\\' else c;
      }
      assert forall i | 0 <= i < |rest| :: value[i + 1] == rest[i];
      assert forall i | 1 <= i < |value| :: value[i] == rest[i - 1];
    }
  }

  /** Every quote inside an escaped value follows a backslash, and no line
      break or tab survives. */
  lemma {:induction false} EscapedQuotesAreGuarded(value: string, i: nat)
    requires i < |Escape(value)|
    ensures Escape(value)[i] == '"' ==> i > 0 && Escape(value)[i - 1] == '\\'
    ensures Escape(value)[i] != '\n' && Escape(value)[i] != '\r' && Escape(value)[i] != '\t'
  {
    var head := EscapeChar(value[0]);
    if i >= |head| {
      EscapedQuotesAreGuarded(value[1..], i - |head|);
    }
  }

  // ---- The scanner ----

  function Marker(field: string): string {
    "\"" + field + "\":"
  }

  function JsonStringField(response: string, field: string): Option<string> {
    match After(response, Marker(field))
    case None => None
    case Some(after) =>
      var rest := TrimStart(after);
      if rest != [] && rest[0] == '"' then BeforeQuote(rest[1..]) else None
  }

  function JsonNumberField(response: string, field: string): Option<string> {
    match After(response, Marker(field))
    case None => None
    case Some(after) =>
      var value := TakeDigits(TrimStart(after));
      if value == [] then None else Some(value)
  }

  /** What the scanner makes of a written string: it stops at the first quote
      and leaves the escapes in. */
  function Recovered(value: string): string {
    if value == [] then []
    else if value[0] == '"' then "\\"
    else EscapeChar(value[0]) + Recovered(value[1..])
  }

  lemma {:induction false} BeforeQuoteSkips(plain: string, rest: string)
    requires '"' !in plain && BeforeQuote(rest).Some?
    ensures BeforeQuote(plain + rest) == Some(plain + BeforeQuote(rest).value)
  {
    if plain == [] {
      assert plain + rest == rest;
      assert plain + BeforeQuote(rest).value == BeforeQuote(rest).value;
    } else {
      assert (plain + rest)[1..] == plain[1..] + rest;
      assert (plain + rest)[0] == plain[0] && plain[0] in plain;
      BeforeQuoteSkips(plain[1..], rest);
      var before := BeforeQuote(rest).value;
      assert [plain[0]] + (plain[1..] + before) == plain + before;
    }
  }

  lemma {:induction false} BeforeQuoteRecovers(value: string, rest: string)
    ensures BeforeQuote(Escape(value) + "\"" + rest) == Some(Recovered(value))
  {
    if value == [] {
      assert (Escape(value) + "\"" + rest)[0] == '"';
    } else {
      var more := Escape(value[1..]) + "\"" + rest;
      assert Escape(value) + "\"" + rest == EscapeChar(value[0]) + more;
      if value[0] == '"' {
        assert ("\"" + more)[0] == '"';
        assert "\\" + "" == "\\";
        BeforeQuoteSkips("\\", "\"" + more);
        assert EscapeChar('"') + more == "\\" + ("\"" + more);
      } else {
        BeforeQuoteRecovers(value[1..], rest);
        BeforeQuoteSkips(EscapeChar(value[0]), more);
      }
    }
  }

  lemma {:induction false} RecoveredShape(value: string)
    ensures '"' !in Recovered(value)
    ensures '"' !in value ==> |Recovered(value)| >= |value|
    ensures value == [] <==> Recovered(value) == []
  {
    if value != [] && value[0] != '"' {
      var head, rest := EscapeChar(value[0]), value[1..];
      RecoveredShape(rest);
      assert '"' !in head && |head| >= 1;
      assert value == [value[0]] + rest;
      assert Recovered(value) == head + Recovered(rest);
    }
  }

  /** A written string comes back exactly when it holds none of the five
      escaped characters. */
  lemma {:induction false} RecoveredExactly(value: string)
    ensures Recovered(value) == value <==> Plain(value)
  {
    if value != [] {
      var c, rest := value[0], value[1..];
      RecoveredExactly(rest);
      RecoveredShape(value);
      RecoveredShape(rest);
      assert value == [c] + rest;
      assert Plain(value) <==> !Special(c) && Plain(rest);
      if !Special(c) {
        assert Recovered(value) == [c] + Recovered(rest);
        assert Recovered(value)[1..] == Recovered(rest);
      } else if '"' in value {
        assert Recovered(value) != value;
      } else {
        assert |Recovered(value)| == 2 + |Recovered(rest)| > |value|;
      }
    }
  }

  // ---- One line of the log ----

  /** A recovered text never passes for a plain one. */
  lemma {:induction false} RecoveredIsPlainExactly(value: string)
    ensures Plain(Recovered(value)) <==> Plain(value)
  {
    if value != [] {
      var c, rest := value[0], value[1..];
      RecoveredIsPlainExactly(rest);
      assert value == [c] + rest;
      assert Plain(value) <==> !Special(c) && Plain(rest);
      if !Special(c) {
        var recovered := [c] + Recovered(rest);
        assert forall i | 0 < i < |recovered| :: recovered[i] == Recovered(rest)[i - 1];
        assert forall i | 0 <= i < |Recovered(rest)| :: Recovered(rest)[i] == recovered[i + 1];
      } else {
        assert Recovered(value)[0] == '\\';
      }
    }
  }

  datatype Raw = Digits(n: nat) | Null | Quoted(value: string)

  datatype Field = Field(key: string, raw: Raw)

  function RenderRaw(raw: Raw): string {
    match raw
    case Digits(n) => Decimal(n)
    case Null => "null"
    case Quoted(value) => "\"" + Escape(value) + "\""
  }

  /** What stands behind a field's value. */
  function Tail(fields: seq<Field>): string
    decreases fields, 1
  {
    if fields == [] then "}" else "," + Body(fields)
  }

  function Body(fields: seq<Field>): string
    requires fields != []
    decreases fields, 0
  {
    Marker(fields[0].key) + RenderRaw(fields[0].raw) + Tail(fields[1..])
  }

  function Render(fields: seq<Field>): string
    requires fields != []
  {
    "{" + Body(fields)
  }

  /** Keys are written unescaped, so they must not need it. */
  predicate KeyChar(c: char) {
    'a' <= c <= 'z' || c == '_'
  }

  predicate GoodKey(key: string) {
    key != [] && forall i | 0 <= i < |key| :: KeyChar(key[i])
  }

  /** A separator follows every value. */
  predicate Separated(text: string) {
    text != [] && (text[0] == ',' || text[0] == '}')
  }

  lemma {:induction false} DifferentKeys(key: string, other: string, rest: string)
    requires '"' !in key && '"' !in other
    requires key + "\"" <= other + "\"" + rest
    ensures key == other
  {
    var text := other + "\"" + rest;
    assert text[|key|] == (key + "\"")[|key|] == '"' == text[|other|];
    assert forall i | 0 <= i < |key| :: text[i] == (key + "\"")[i] == key[i];
    assert forall i | 0 <= i < |other| :: text[i] == other[i];
    assert |key| == |other|;
  }

  /** The heart of the matter: after any quote inside a written value, or its
      opening quote, the text does not continue with a key and `":`. */
  lemma {:induction false} NoKeyInsideValue(key: string, value: string, rest: string)
    requires forall i | 0 <= i < |key| :: !Special(key[i])
    requires Separated(rest)
    ensures !(key + "\":" <= Escape(value) + "\"" + rest)
  {
    var text := Escape(value) + "\"" + rest;
    if value == [] {
      assert text == "\"" + rest;
      assert key == [] ==> (key + "\":")[1] == ':';
      assert key != [] ==> (key + "\":")[0] == key[0];
    } else if key + "\":" <= text {
        assert (key + "\":")[0] == text[0];
        assert text[0] == EscapeChar(value[0])[0];
        assert key != [] && key[0] == value[0] && !Special(value[0]);
        assert text == [value[0]] + (Escape(value[1..]) + "\"" + rest);
        assert (key + "\":")[1..] == key[1..] + "\":";
        assert text[1..] == Escape(value[1..]) + "\"" + rest;
        assert key[1..] + "\":" <= text[1..];
        NoKeyInsideValue(key[1..], value[1..], rest);
    }
  }

  lemma MissAtQuote(key: string, text: string)
    requires !(key + "\":" <= text)
    ensures After("\"" + text, Marker(key)) == After(text, Marker(key))
  {
    assert Marker(key)[1..] == key + "\":";
    assert ("\"" + text)[1..] == text;
  }

  /** The scan for a key runs over a written value without stopping in it. */
  lemma {:induction false} ScanPassesValue(key: string, value: string, rest: string)
    requires GoodKey(key) && Separated(rest)
    ensures After(Escape(value) + "\"" + rest, Marker(key)) == After(rest, Marker(key))
  {
    if value == [] {
      assert Escape(value) + "\"" + rest == "\"" + rest;
      assert (key + "\":")[0] == key[0] != rest[0];
      MissAtQuote(key, rest);
    } else {
      var head, more := EscapeChar(value[0]), Escape(value[1..]) + "\"" + rest;
      assert Escape(value) + "\"" + rest == head + more;
      ScanPassesValue(key, value[1..], rest);
      if value[0] == '"' {
        assert head + more == "\\" + ("\"" + more);
        AfterSkips("\\", "\"" + more, Marker(key));
        NoKeyInsideValue(key, value[1..], rest);
        MissAtQuote(key, more);
      } else {
        AfterSkips(head, more, Marker(key));
      }
    }
  }

  lemma ScanPassesRaw(key: string, raw: Raw, rest: string)
    requires GoodKey(key) && Separated(rest)
    ensures After(RenderRaw(raw) + rest, Marker(key)) == After(rest, Marker(key))
  {
    match raw {
      case Digits(n) =>
        assert forall c | c in Decimal(n) :: IsDigit(c);
        AfterSkips(Decimal(n), rest, Marker(key));
      case Null => AfterSkips("null", rest, Marker(key));
      case Quoted(value) =>
        var inner := Escape(value) + "\"" + rest;
        assert RenderRaw(raw) + rest == "\"" + inner;
        NoKeyInsideValue(key, value, rest);
        MissAtQuote(key, inner);
        ScanPassesValue(key, value, rest);
    }
  }

  lemma ScanPassesKey(key: string, other: string, rest: string)
    requires GoodKey(key) && GoodKey(other) && key != other
    ensures After(Marker(other) + rest, Marker(key)) == After(rest, Marker(key))
  {
    var text := other + "\":" + rest;
    assert Marker(other) + rest == "\"" + text;
    if key + "\":" <= text {
      assert text == other + "\"" + (":" + rest);
      assert key + "\"" <= key + "\":" <= text;
      DifferentKeys(key, other, ":" + rest);
    }
    MissAtQuote(key, text);
    var after := "\":" + rest;
    assert text == other + after;
    AfterSkips(other, after, Marker(key));
    assert after == "\"" + (":" + rest);
    assert (key + "\":")[0] == key[0] != ':' == (":" + rest)[0];
    MissAtQuote(key, ":" + rest);
    AfterSkips(":", rest, Marker(key));
  }

  predicate GoodFields(fields: seq<Field>) {
    forall i | 0 <= i < |fields| :: GoodKey(fields[i].key)
  }

  lemma TailSeparated(fields: seq<Field>)
    ensures Separated(Tail(fields))
  {
  }

  /** Whatever the values hold, scanning for a key finds that key's own field
      and nothing else; a key that was not written is not found. */
  lemma {:induction false} ScanFindsField(fields: seq<Field>, key: string, i: nat)
    requires GoodFields(fields) && GoodKey(key)
    requires i <= |fields| && forall j | 0 <= j < i :: fields[j].key != key
    requires i < |fields| ==> fields[i].key == key
    ensures After(Tail(fields), Marker(key)) ==
            if i < |fields| then Some(RenderRaw(fields[i].raw) + Tail(fields[i + 1..])) else None
  {
    if fields == [] {
      assert "}"[1..] == "";
    } else {
      var first, rest := fields[0], fields[1..];
      var value := RenderRaw(first.raw) + Tail(rest);
      assert Tail(fields) == "," + (Marker(first.key) + value);
      AfterSkips(",", Marker(first.key) + value, Marker(key));
      if i == 0 {
        assert (Marker(key) + value)[|Marker(key)|..] == value;
        assert fields[1..] == rest;
      } else {
        TailSeparated(rest);
        ScanPassesKey(key, first.key, value);
        ScanPassesRaw(key, first.raw, Tail(rest));
        ScanFindsField(rest, key, i - 1);
        assert i < |fields| ==> rest[i..] == fields[i + 1..];
      }
    }
  }

  lemma ScanLine(fields: seq<Field>, key: string, i: nat)
    requires GoodFields(fields) && GoodKey(key)
    requires i < |fields| && fields[i].key == key && forall j | 0 <= j < i :: fields[j].key != key
    ensures After(Render(fields), Marker(key)) == Some(RenderRaw(fields[i].raw) + Tail(fields[i + 1..]))
  {
    AfterSkips("{", Body(fields), Marker(key));
    AfterSkips(",", Body(fields), Marker(key));
    ScanFindsField(fields, key, i);
  }

  /** A quoted field reads back as its recovered text, whatever the rest of
      the line holds. */
  lemma StringFieldRead(fields: seq<Field>, key: string, i: nat)
    requires GoodFields(fields) && GoodKey(key)
    requires i < |fields| && fields[i].key == key && forall j | 0 <= j < i :: fields[j].key != key
    requires fields[i].raw.Quoted?
    ensures JsonStringField(Render(fields), key) == Some(Recovered(fields[i].raw.value))
  {
    hide Render, Body, Tail, Marker, After, Escape, GoodKey;
    ScanLine(fields, key, i);
    var value, rest := fields[i].raw.value, Tail(fields[i + 1..]);
    var after := RenderRaw(fields[i].raw) + rest;
    assert after[0] == '"' && after[1..] == Escape(value) + "\"" + rest;
    BeforeQuoteRecovers(value, rest);
  }

  /** A number field reads back exactly; a null one reads as absent. */
  lemma NumberFieldRead(fields: seq<Field>, key: string, i: nat)
    requires GoodFields(fields) && GoodKey(key)
    requires i < |fields| && fields[i].key == key && forall j | 0 <= j < i :: fields[j].key != key
    requires !fields[i].raw.Quoted?
    ensures JsonNumberField(Render(fields), key) ==
            if fields[i].raw.Digits? then Some(Decimal(fields[i].raw.n)) else None
  {
    hide Render, Body, Tail, Marker, After, Escape, GoodKey;
    ScanLine(fields, key, i);
    var rest := Tail(fields[i + 1..]);
    TailSeparated(fields[i + 1..]);
    match fields[i].raw {
      case Digits(n) =>
        assert (Decimal(n) + rest)[0] == Decimal(n)[0];
        TakeDigitsStops(Decimal(n), rest);
      case Null => assert ("null" + rest)[0] == 'n';
    }
  }
}
