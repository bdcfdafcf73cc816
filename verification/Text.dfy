/** The string operations of the standard library that the model relies on. */
module Text {
  import opened Wrappers

  /** Unicode White_Space. */
  predicate IsWhitespace(c: char) {
    || '\U{9}' <= c <= '\U{d}' || c == ' ' || c == '\U{85}' || c == '\U{a0}' || c == '\U{1680}'
    || '\U{2000}' <= c <= '\U{200a}' || c == '\U{2028}' || c == '\U{2029}' || c == '\U{202f}'
    || c == '\U{205f}' || c == '\U{3000}'
  }

  function TrimStart(s: string): (t: string) {
    if s != [] && IsWhitespace(s[0]) then TrimStart(s[1..]) else s
  }

  function TrimEnd(s: string): (t: string) {
    if s != [] && IsWhitespace(s[|s| - 1]) then TrimEnd(s[..|s| - 1]) else s
  }

  predicate IsBlank(s: string) {
    forall i | 0 <= i < |s| :: IsWhitespace(s[i])
  }

  /** The text up to the first whitespace, and what follows it. */
  function Word(s: string): (string, string) {
    if s == [] || IsWhitespace(s[0]) then ("", s)
    else var (word, rest) := Word(s[1..]); ([s[0]] + word, rest)
  }

  lemma {:induction false} WordEndsAtSpace(word: string, rest: string)
    requires forall i | 0 <= i < |word| :: !IsWhitespace(word[i])
    requires rest != [] && IsWhitespace(rest[0])
    ensures Word(word + rest) == (word, rest)
  {
    if word == [] {
      assert word + rest == rest;
    } else {
      assert (word + rest)[1..] == word[1..] + rest;
      WordEndsAtSpace(word[1..], rest);
      assert [word[0]] + word[1..] == word;
    }
  }

  // ---- Searching ----

  predicate OccursAt(text: string, pattern: string, i: nat) {
    i + |pattern| <= |text| && text[i..i + |pattern|] == pattern
  }

  /** What follows the first occurrence of `pattern`. */
  function After(text: string, pattern: string): (rest: Option<string>) {
    if pattern <= text then Some(text[|pattern|..])
    else if text == [] then None
    else After(text[1..], pattern)
  }

  /** `After` finds the leftmost occurrence, and finds one if there is any. */
  lemma {:induction false} AfterIsLeftmost(text: string, pattern: string) returns (at: nat)
    ensures After(text, pattern).Some? ==>
              OccursAt(text, pattern, at) && After(text, pattern) == Some(text[at + |pattern|..])
    ensures forall i: nat | OccursAt(text, pattern, i) :: After(text, pattern).Some? && at <= i
  {
    at := 0;
    if !(pattern <= text) && text != [] {
      var rest := text[1..];
      var later := AfterIsLeftmost(rest, pattern);
      at := later + 1;
      assert After(rest, pattern).Some? ==> rest[later..later + |pattern|] == text[at..at + |pattern|]
                                            && rest[later + |pattern|..] == text[at + |pattern|..];
      forall i: nat | OccursAt(text, pattern, i)
        ensures After(text, pattern).Some? && at <= i
      {
        assert i > 0;
        assert rest[i - 1..i - 1 + |pattern|] == text[i..i + |pattern|];
        assert OccursAt(rest, pattern, i - 1);
      }
    }
  }

  /** A pattern that opens with a quote is not found in quote-free text. */
  lemma {:induction false} AfterSkips(plain: string, text: string, pattern: string)
    requires pattern != [] && pattern[0] == '"' && '"' !in plain
    ensures After(plain + text, pattern) == After(text, pattern)
  {
    if plain == [] {
      assert plain + text == text;
    } else {
      assert (plain + text)[1..] == plain[1..] + text;
      AfterSkips(plain[1..], text, pattern);
    }
  }

  /** The text before the first double quote. */
  function BeforeQuote(s: string): Option<string> {
    if s == [] then None
    else if s[0] == '"' then Some("")
    else match BeforeQuote(s[1..])
      case Some(t) => Some([s[0]] + t)
      case None => None
  }

  // ---- Decimal numbers ----

  predicate IsDigit(c: char) {
    '0' <= c <= '9'
  }

  predicate AllDigits(s: string) {
    forall i | 0 <= i < |s| :: IsDigit(s[i])
  }

  function Decimal(n: nat): (s: string)
    ensures s != [] && AllDigits(s)
  {
    var last := ['0' + (n % 10) as char];
    if n < 10 then last else Decimal(n / 10) + last
  }

  function DecimalValue(s: string): (n: nat)
    requires AllDigits(s)
  {
    if s == [] then 0
    else 10 * DecimalValue(s[..|s| - 1]) + (s[|s| - 1] as int - '0' as int)
  }

  lemma {:induction false} DecimalRoundTrip(n: nat)
    ensures DecimalValue(Decimal(n)) == n
  {
    var s := Decimal(n);
    if n < 10 {
      assert s[..0] == [];
    } else {
      assert s[..|s| - 1] == Decimal(n / 10);
      DecimalRoundTrip(n / 10);
    }
  }

  function TakeDigits(s: string): (digits: string)
    ensures AllDigits(digits)
  {
    if s != [] && IsDigit(s[0]) then [s[0]] + TakeDigits(s[1..]) else []
  }

  lemma {:induction false} TakeDigitsStops(digits: string, rest: string)
    requires AllDigits(digits) && (rest != [] ==> !IsDigit(rest[0]))
    ensures TakeDigits(digits + rest) == digits
  {
    if digits == [] {
      assert digits + rest == rest;
    } else {
      assert (digits + rest)[1..] == digits[1..] + rest;
      TakeDigitsStops(digits[1..], rest);
    }
  }

  // ---- Lines ----

  function StripCarriageReturn(line: string): string {
    if line != [] && line[|line| - 1] == '\r' then line[..|line| - 1] else line
  }

  /** The first line of `s`, and the text after its newline. */
  function FirstLine(s: string): (string, Option<string>) {
    if s == [] then ("", None)
    else if s[0] == '\n' then ("", Some(s[1..]))
    else var (line, rest) := FirstLine(s[1..]); ([s[0]] + line, rest)
  }

  lemma {:induction false} FirstLineShrinks(s: string)
    ensures FirstLine(s).1.Some? ==> |FirstLine(s).1.value| < |s|
  {
    if s != [] {
      FirstLineShrinks(s[1..]);
    }
  }

  function Lines(s: string): seq<string>
    decreases |s|
  {
    if s == [] then []
    else
      FirstLineShrinks(s);
      match FirstLine(s)
      case (line, Some(rest)) => [StripCarriageReturn(line)] + Lines(rest)
      case (line, None) => [line]
  }

  /** A file to which each line was written with a newline after it. */
  function Unlines(lines: seq<string>): string {
    if lines == [] then [] else lines[0] + "\n" + Unlines(lines[1..])
  }

  predicate CleanLine(line: string) {
    '\n' !in line && StripCarriageReturn(line) == line
  }

  lemma {:induction false} FirstLineOf(line: string, rest: string)
    requires '\n' !in line
    ensures FirstLine(line + "\n" + rest) == (line, Some(rest))
  {
    var s := line + "\n" + rest;
    if line == [] {
      assert s[0] == '\n' && s[1..] == rest;
    } else {
      assert s[1..] == line[1..] + "\n" + rest;
      assert s[0] == line[0] && line[0] in line;
      FirstLineOf(line[1..], rest);
      assert [line[0]] + line[1..] == line;
    }
  }

  lemma {:induction false} LinesRoundTrip(lines: seq<string>)
    requires forall line | line in lines :: CleanLine(line)
    ensures Lines(Unlines(lines)) == lines
  {
    if lines != [] {
      assert lines[0] in lines;
      FirstLineOf(lines[0], Unlines(lines[1..]));
      LinesRoundTrip(lines[1..]);
    }
  }

  /** Reading drops no line, only a carriage return before a break. */
  lemma {:induction false} LinesOfText(lines: seq<string>)
    requires forall line | line in lines :: '\n' !in line
    ensures |Lines(Unlines(lines))| == |lines|
    ensures forall i | 0 <= i < |lines| :: Lines(Unlines(lines))[i] == StripCarriageReturn(lines[i])
  {
    if lines != [] {
      assert lines[0] in lines;
      FirstLineOf(lines[0], Unlines(lines[1..]));
      LinesOfText(lines[1..]);
    }
  }

  lemma {:induction false} UnlinesAppend(lines: seq<string>, line: string)
    ensures Unlines(lines + [line]) == Unlines(lines) + line + "\n"
  {
    if lines == [] {
      assert lines + [line] == [line];
      assert [line][1..] == [];
    } else {
      assert (lines + [line])[1..] == lines[1..] + [line];
      UnlinesAppend(lines[1..], line);
    }
  }
}
