/** Reading one turn's durable events back. Older builds wrote the streamed
    block of a turn twice; the reader drops every repeated line. */
module EventReplay {
  import opened Dedup
  import opened Wrappers
  import opened Text
  import opened RuntimeTypes
  import opened EventStream

  /** The serialiser, taken as given. */
  datatype Codec = Codec(encode: Event -> string, parse: string -> Option<Event>)

  /** One line of text, with nothing to trim. */
  predicate IsLine(line: string) {
    '\n' !in line && line != [] && !IsWhitespace(line[|line| - 1])
  }

  /** Parsing undoes encoding, and an encoded event fits on a line. */
  ghost predicate Lossless(codec: Codec) {
    forall event :: codec.parse(codec.encode(event)) == Some(event) && IsLine(codec.encode(event))
  }

  // ---- The reader ----

  function Trimmed(lines: seq<string>): seq<string> {
    if lines == [] then []
    else
      var line := TrimEnd(lines[|lines| - 1]);
      Trimmed(lines[..|lines| - 1]) + if IsBlank(line) then [] else [line]
  }

  function Parsed(codec: Codec, lines: seq<string>): seq<Event> {
    if lines == [] then []
    else
      Parsed(codec, lines[..|lines| - 1]) +
      match codec.parse(lines[|lines| - 1])
      case Some(event) => [event]
      case None => []
  }

  function Healed(codec: Codec, content: string): seq<Event> {
    Parsed(codec, Distinct(Trimmed(Lines(content))))
  }

  /** What is read from a file: nothing at all if it is missing or its bytes are
      not UTF-8. */
  function ReadBack(codec: Codec, content: Option<string>): seq<Event> {
    match content case Some(text) => Healed(codec, text) case None => []
  }

  /** Keeps the first of every line and skips what does not parse. */
  method ReadAcpRuntimeEvents(codec: Codec, content: Option<string>) returns (events: seq<Event>)
    ensures events == ReadBack(codec, content)
  {
    events := [];
    if content == None {
      return;
    }
    var lines := Lines(content.value);
    var seen: set<string> := {};
    var i := 0;
    while i < |lines|
      invariant 0 <= i <= |lines|
      invariant forall line :: line in seen <==> line in Distinct(Trimmed(lines[..i]))
      invariant events == Parsed(codec, Distinct(Trimmed(lines[..i])))
    {
      ReadStep(codec, lines, i);
      var line := TrimEnd(lines[i]);
      if !IsBlank(line) && line !in seen {
        seen := seen + {line};
        var event := codec.parse(line);
        if event.Some? {
          events := events + [event.value];
        }
      }
      i := i + 1;
    }
    assert lines[..i] == lines;
  }

  lemma ReadStep(codec: Codec, lines: seq<string>, i: nat)
    requires i < |lines|
    ensures var line := TrimEnd(lines[i]);
            var before, after := Distinct(Trimmed(lines[..i])), Distinct(Trimmed(lines[..i + 1]));
            if IsBlank(line) then after == before
            else
              && after == PushUnique(before, line)
              && (line !in before ==>
                    Parsed(codec, after) == Parsed(codec, before) +
                    match codec.parse(line) case Some(event) => [event] case None => [])
  {
    hide TrimEnd, IsBlank;
    var line := TrimEnd(lines[i]);
    var before := Trimmed(lines[..i]);
    assert lines[..i + 1][..i] == lines[..i];
    assert before + [] == before;
    if !IsBlank(line) {
      assert Trimmed(lines[..i + 1]) == before + [line];
      assert (before + [line])[..|before|] == before;
      assert (Distinct(before) + [line])[..|Distinct(before)|] == Distinct(before);
    }
  }

  // ---- Files one writer wrote ----

  function Encoded(codec: Codec, events: seq<Event>): seq<string> {
    if events == [] then []
    else Encoded(codec, events[..|events| - 1]) + [codec.encode(events[|events| - 1])]
  }

  /** The file after these events were appended, one line each. */
  function Written(codec: Codec, events: seq<Event>): string {
    Unlines(Encoded(codec, events))
  }

  lemma TrimLine(line: string)
    requires IsLine(line)
    ensures CleanLine(line) && TrimEnd(line) == line && !IsBlank(line)
  {
    assert IsWhitespace('\r');
  }

  lemma {:induction false} TrimLines(lines: seq<string>)
    requires forall line | line in lines :: IsLine(line)
    ensures Trimmed(lines) == lines
    ensures forall line | line in lines :: CleanLine(line)
  {
    hide TrimEnd, IsBlank, IsLine, CleanLine;
    if lines != [] {
      var n := |lines| - 1;
      TrimLines(lines[..n]);
      assert lines == lines[..n] + [lines[n]];
      TrimLine(lines[n]);
    }
  }

  lemma {:induction false} EncodedLines(codec: Codec, events: seq<Event>)
    requires Lossless(codec)
    ensures forall line | line in Encoded(codec, events) :: IsLine(line)
    ensures forall event :: event in events <==> codec.encode(event) in Encoded(codec, events)
  {
    hide IsLine;
    if events != [] {
      var n := |events| - 1;
      EncodedLines(codec, events[..n]);
      assert events == events[..n] + [events[n]];
      forall event
        ensures event in events <==> codec.encode(event) in Encoded(codec, events)
      {
        assert codec.parse(codec.encode(event)) == Some(event);
        assert codec.parse(codec.encode(events[n])) == Some(events[n]);
      }
    }
  }

  lemma {:induction false} EncodedDistinct(codec: Codec, events: seq<Event>)
    requires Lossless(codec)
    ensures Distinct(Encoded(codec, events)) == Encoded(codec, Distinct(events))
  {
    if events != [] {
      var n := |events| - 1;
      var lines := Encoded(codec, events[..n]);
      EncodedDistinct(codec, events[..n]);
      EncodedLines(codec, events[..n]);
      DistinctIsFirstOccurrences(lines);
      DistinctIsFirstOccurrences(events[..n]);
      assert (lines + [codec.encode(events[n])])[..|lines|] == lines;
      var firsts := Distinct(events[..n]);
      assert (firsts + [events[n]])[..|firsts|] == firsts;
    }
  }

  lemma {:induction false} ParsedEncoded(codec: Codec, events: seq<Event>)
    requires Lossless(codec)
    ensures Parsed(codec, Encoded(codec, events)) == events
  {
    if events != [] {
      var n := |events| - 1;
      ParsedEncoded(codec, events[..n]);
      var lines := Encoded(codec, events[..n]);
      assert (lines + [codec.encode(events[n])])[..|lines|] == lines;
      assert events == events[..n] + [events[n]];
    }
  }

  /** Reading back whatever was appended gives each event once, in the order
      they were first written. */
  lemma WrittenReadsBack(codec: Codec, events: seq<Event>)
    requires Lossless(codec)
    ensures Healed(codec, Written(codec, events)) == Distinct(events)
  {
    var lines := Encoded(codec, events);
    EncodedLines(codec, events);
    TrimLines(lines);
    LinesRoundTrip(lines);
    EncodedDistinct(codec, events);
    ParsedEncoded(codec, Distinct(events));
  }

  /** The reader is the identity exactly on files without a repeat. */
  lemma ReadingIsExact(codec: Codec, events: seq<Event>)
    requires Lossless(codec)
    ensures Healed(codec, Written(codec, events)) == events <==> NoRepeats(events)
  {
    WrittenReadsBack(codec, events);
    DistinctFixes(events);
  }

  lemma {:induction false} FirstLineIsOne(s: string)
    ensures '\n' !in FirstLine(s).0
  {
    if s != [] && s[0] != '\n' {
      FirstLineIsOne(s[1..]);
    }
  }

  lemma {:induction false} LinesAreSingle(s: string)
    ensures forall line | line in Lines(s) :: '\n' !in line
    decreases |s|
  {
    if s != [] {
      FirstLineShrinks(s);
      FirstLineIsOne(s);
      if FirstLine(s).1.Some? {
        LinesAreSingle(FirstLine(s).1.value);
      }
    }
  }

  lemma {:induction false} TrimEndKeeps(s: string)
    ensures TrimEnd(s) <= s && (TrimEnd(s) != [] ==> !IsWhitespace(TrimEnd(s)[|TrimEnd(s)| - 1]))
  {
    if s != [] && IsWhitespace(s[|s| - 1]) {
      TrimEndKeeps(s[..|s| - 1]);
    }
  }

  lemma {:induction false} TrimmedAreLines(lines: seq<string>)
    requires forall line | line in lines :: '\n' !in line
    ensures forall line | line in Trimmed(lines) :: IsLine(line)
  {
    hide TrimEnd;
    if lines != [] {
      var n := |lines| - 1;
      TrimmedAreLines(lines[..n]);
      TrimEndKeeps(lines[n]);
      assert lines[n] in lines;
      var line := TrimEnd(lines[n]);
      assert forall c | c in line :: c in lines[n];
      assert line == [] ==> IsBlank(line);
    }
  }

  /** Healing a healed file changes nothing, whatever the file held. */
  lemma HealingIsIdempotent(codec: Codec, content: string)
    ensures var kept := Distinct(Trimmed(Lines(content)));
            && Distinct(Trimmed(Lines(Unlines(kept)))) == kept
            && Healed(codec, Unlines(kept)) == Healed(codec, content)
  {
    hide IsLine;
    var kept := Distinct(Trimmed(Lines(content)));
    LinesAreSingle(content);
    TrimmedAreLines(Lines(content));
    DistinctIsFirstOccurrences(Trimmed(Lines(content)));
    TrimLines(kept);
    LinesRoundTrip(kept);
    DistinctFixes(kept);
  }

  /** A block appended a second time is dropped, and only that. */
  lemma DoubledBlockHeals(codec: Codec, head: seq<Event>, block: seq<Event>, tail: seq<Event>)
    requires Lossless(codec) && NoRepeats(head + block + tail)
    ensures Healed(codec, Written(codec, head + block + block + tail)) == head + block + tail
  {
    WrittenReadsBack(codec, head + block + block + tail);
    DistinctDropsRepeats(head + block, block);
    DistinctOfDistinct(head + block + block, tail);
    DistinctOfDistinct(head + block, tail);
    DistinctFixes(head + block + tail);
  }

  // ---- Files of a turn ----

  /** The facts a turn writes around its stream: what opened it, numbered 0. */
  function StartEvents(sessionId: string, acceptedInput: Option<string>): seq<Event> {
    (match acceptedInput case Some(input) => [Event(0, InputAccepted(sessionId, input))] case None => []) +
    [Event(0, SessionStarted(sessionId))]
  }

  /** The closing fact. A paused or killed turn publishes none. */
  function EndEvents(sessionId: string, status: Option<string>): seq<Event> {
    match status case Some(word) => [Event(0, SessionEnded(sessionId, word))] case None => []
  }

  /** No event of a turn is written twice: the stream is numbered from 1, and
      the facts around it, numbered 0, say different things. */
  lemma TurnHasNoRepeats(turn: Turn, updates: seq<Update>, written: nat, input: Option<string>, status: Option<string>)
    requires written <= |Stream(turn, updates)|
    ensures NoRepeats(StartEvents(turn.sessionId, input) + Stream(turn, updates)[..written] +
                      EndEvents(turn.sessionId, status))
  {
    hide Stream;
    StreamIsConsistent(turn, updates);
    var start, body, end := StartEvents(turn.sessionId, input), Stream(turn, updates)[..written],
                            EndEvents(turn.sessionId, status);
    assert forall i | 0 <= i < |body| :: body[i].sequence == i + 1;
    assert forall i | 0 <= i < |start| :: start[i].sequence == 0 && !start[i].fact.SessionEnded?;
    assert forall i | 0 <= i < |end| :: end[i].sequence == 0 && end[i].fact.SessionEnded?;
  }

  /** A file with a single writer loses nothing, even when its stream was cut
      short; a file an older build doubled reads as the same turn. */
  lemma TurnReplaysExactly(codec: Codec, turn: Turn, updates: seq<Update>, written: nat,
                           input: Option<string>, status: Option<string>)
    requires Lossless(codec) && written <= |Stream(turn, updates)|
    ensures var start, body, end := StartEvents(turn.sessionId, input), Stream(turn, updates)[..written],
                                    EndEvents(turn.sessionId, status);
            && Healed(codec, Written(codec, start + body + end)) == start + body + end
            && Healed(codec, Written(codec, start + body + body + end)) == start + body + end
  {
    hide Stream, Healed, Written, Lossless;
    var start, body, end := StartEvents(turn.sessionId, input), Stream(turn, updates)[..written],
                            EndEvents(turn.sessionId, status);
    TurnHasNoRepeats(turn, updates, written, input, status);
    ReadingIsExact(codec, start + body + end);
    DoubledBlockHeals(codec, start, body, end);
  }

  // ---- Unfinished lines ----

  /** No beginning of a line is an event, by itself or with another line put
      right after it: JSON objects, which is what lines are, behave so. */
  ghost predicate Delimited(codec: Codec) {
    && (forall event, n: nat | n < |codec.encode(event)| :: codec.parse(TrimEnd(codec.encode(event)[..n])) == None)
    && (forall event, n: nat, next | 0 < n <= |codec.encode(event)| ::
          codec.parse(codec.encode(event)[..n] + codec.encode(next)) == None)
  }

  lemma {:induction false} TornLine(lines: seq<string>, torn: string)
    requires forall line | line in lines :: CleanLine(line)
    requires torn != [] && '\n' !in torn
    ensures Lines(Unlines(lines) + torn) == lines + [torn]
  {
    hide CleanLine, FirstLine;
    if lines == [] {
      assert Unlines(lines) + torn == torn;
      LastLine(torn);
    } else {
      var rest := Unlines(lines[1..]) + torn;
      assert Unlines(lines) + torn == lines[0] + "\n" + rest;
      LinesStep(lines[0], rest);
      TornLine(lines[1..], torn);
      assert lines + [torn] == [lines[0]] + (lines[1..] + [torn]);
    }
  }

  lemma LinesStep(line: string, rest: string)
    requires CleanLine(line)
    ensures Lines(line + "\n" + rest) == [line] + Lines(rest)
  {
    hide FirstLine;
    FirstLineOf(line, rest);
  }

  lemma LastLine(torn: string)
    requires torn != [] && '\n' !in torn
    ensures Lines(torn) == [torn]
  {
    hide FirstLine;
    OnlyLine(torn);
  }

  lemma {:induction false} OnlyLine(torn: string)
    requires '\n' !in torn
    ensures FirstLine(torn) == (torn, None)
  {
    if torn != [] {
      assert torn[0] in torn;
      OnlyLine(torn[1..]);
      assert [torn[0]] + torn[1..] == torn;
    }
  }

  /** A line cut off at the very end of a file costs only itself. */
  lemma TornLineCostsOnlyItself(codec: Codec, events: seq<Event>, torn: string)
    requires Lossless(codec) && torn != [] && '\n' !in torn && codec.parse(TrimEnd(torn)) == None
    ensures Healed(codec, Written(codec, events) + torn) == Distinct(events)
  {
    var lines := Encoded(codec, events);
    EncodedLines(codec, events);
    TrimLines(lines);
    TornLine(lines, torn);
    UnparsedLine(codec, events, torn);
  }

  /** A line that is no event adds nothing to what is read. */
  lemma UnparsedLine(codec: Codec, events: seq<Event>, line: string)
    requires Lossless(codec) && codec.parse(TrimEnd(line)) == None
    ensures Parsed(codec, Distinct(Trimmed(Encoded(codec, events) + [line]))) == Distinct(events)
  {
    hide TrimEnd, IsBlank, IsLine, Distinct, Trimmed;
    var lines := Encoded(codec, events);
    EncodedLines(codec, events);
    TrimLines(lines);
    assert (lines + [line])[..|lines|] == lines && (lines + [line])[..|lines| + 1] == lines + [line];
    ReadStep(codec, lines + [line], |lines|);
    EncodedDistinct(codec, events);
    ParsedEncoded(codec, Distinct(events));
  }

  lemma {:induction false} TrimmedConcat(a: seq<string>, b: seq<string>)
    ensures Trimmed(a + b) == Trimmed(a) + Trimmed(b)
  {
    hide TrimEnd, IsBlank;
    if b == [] {
      assert a + b == a;
    } else {
      var n := |b| - 1;
      assert (a + b)[..|a + b| - 1] == a + b[..n];
      TrimmedConcat(a, b[..n]);
    }
  }

  lemma {:induction false} EncodedConcat(codec: Codec, a: seq<Event>, b: seq<Event>)
    ensures Encoded(codec, a + b) == Encoded(codec, a) + Encoded(codec, b)
  {
    if b == [] {
      assert a + b == a;
    } else {
      var n := |b| - 1;
      assert (a + b)[..|a + b| - 1] == a + b[..n];
      EncodedConcat(codec, a, b[..n]);
    }
  }

  lemma {:induction false} UnlinesConcat(a: seq<string>, b: seq<string>)
    ensures Unlines(a + b) == Unlines(a) + Unlines(b)
  {
    if a == [] {
      assert a + b == b;
    } else {
      assert (a + b)[1..] == a[1..] + b;
      UnlinesConcat(a[1..], b);
    }
  }

  lemma WrittenConcat(codec: Codec, a: seq<Event>, b: seq<Event>)
    ensures Written(codec, a + b) == Written(codec, a) + Written(codec, b)
  {
    EncodedConcat(codec, a, b);
    UnlinesConcat(Encoded(codec, a), Encoded(codec, b));
  }

  lemma WrittenOne(codec: Codec, event: Event)
    ensures Written(codec, [event]) == codec.encode(event) + "\n"
  {
    var line := codec.encode(event);
    var none: seq<string> := [];
    assert [event][..0] == [];
    assert Encoded(codec, [event]) == none + [line] == [line];
    UnlinesAppend(none, line);
    assert Unlines(none) + line == line;
  }

  function Except(lines: seq<string>, odd: string): seq<string> {
    if lines == [] then []
    else Except(lines[..|lines| - 1], odd) + if lines[|lines| - 1] == odd then [] else [lines[|lines| - 1]]
  }

  lemma {:induction false} ExceptConcat(a: seq<string>, b: seq<string>, odd: string)
    ensures Except(a + b, odd) == Except(a, odd) + Except(b, odd)
  {
    if b == [] {
      assert a + b == a;
    } else {
      var n := |b| - 1;
      assert (a + b)[..|a + b| - 1] == a + b[..n];
      ExceptConcat(a, b[..n], odd);
    }
  }

  lemma {:induction false} ExceptMembers(lines: seq<string>, odd: string, line: string)
    requires line != odd
    ensures line in lines <==> line in Except(lines, odd)
  {
    if lines != [] {
      var n := |lines| - 1;
      ExceptMembers(lines[..n], odd, line);
      assert lines == lines[..n] + [lines[n]];
    }
  }

  /** What one more line adds to what is read. */
  lemma DistinctStep(codec: Codec, lines: seq<string>, line: string)
    ensures Parsed(codec, Distinct(lines + [line])) ==
            Parsed(codec, Distinct(lines)) +
            if line in lines then [] else match codec.parse(line) case Some(event) => [event] case None => []
  {
    hide Parsed;
    var firsts := Distinct(lines);
    DistinctIsFirstOccurrences(lines);
    assert (lines + [line])[..|lines|] == lines;
    ParsedStep(codec, firsts, line);
    assert Parsed(codec, firsts) + [] == Parsed(codec, firsts);
  }

  lemma ParsedStep(codec: Codec, lines: seq<string>, line: string)
    ensures Parsed(codec, lines + [line]) ==
            Parsed(codec, lines) + match codec.parse(line) case Some(event) => [event] case None => []
  {
    assert (lines + [line])[..|lines|] == lines;
  }

  /** Lines that are no events may as well not be there. */
  lemma {:induction false} UnparsedLinesAreSkipped(codec: Codec, lines: seq<string>, odd: string)
    requires codec.parse(odd) == None
    ensures Parsed(codec, Distinct(lines)) == Parsed(codec, Distinct(Except(lines, odd)))
  {
    hide Parsed, Distinct;
    if lines != [] {
      var n := |lines| - 1;
      var last, kept := lines[n], Except(lines[..n], odd);
      UnparsedLinesAreSkipped(codec, lines[..n], odd);
      assert lines == lines[..n] + [last];
      DistinctStep(codec, lines[..n], last);
      assert Parsed(codec, Distinct(kept)) + [] == Parsed(codec, Distinct(kept));
      if last == odd {
        assert kept + [] == kept;
      } else {
        ExceptMembers(lines[..n], odd, last);
        DistinctStep(codec, kept, last);
      }
    }
  }

  lemma EncodedReadsBack(codec: Codec, events: seq<Event>)
    requires Lossless(codec)
    ensures Parsed(codec, Distinct(Encoded(codec, events))) == Distinct(events)
  {
    EncodedDistinct(codec, events);
    ParsedEncoded(codec, Distinct(events));
  }

  /** The file of a writer that broke off after `n` characters of a line, and of
      the writer that went on after it. */
  function Interrupted(codec: Codec, events: seq<Event>, next: Event, n: nat, more: seq<Event>): string
    requires n <= |codec.encode(next)|
  {
    Written(codec, events) + codec.encode(next)[..n] + Written(codec, more)
  }

  lemma InterruptedText(codec: Codec, events: seq<Event>, torn: string, first: Event, rest: seq<Event>)
    ensures Written(codec, events) + torn + Written(codec, [first] + rest) ==
            Unlines(Encoded(codec, events) + [torn + codec.encode(first)] + Encoded(codec, rest))
  {
    hide Unlines, Encoded;
    var glued := torn + codec.encode(first);
    WrittenConcat(codec, [first], rest);
    WrittenOne(codec, first);
    UnlinesConcat(Encoded(codec, events) + [glued], Encoded(codec, rest));
    UnlinesAppend(Encoded(codec, events), glued);
    Regroup(Written(codec, events), torn, codec.encode(first), Written(codec, rest));
  }

  lemma Regroup(a: string, b: string, c: string, d: string)
    ensures a + b + (c + "\n" + d) == a + (b + c) + "\n" + d
  {
  }

  lemma GluedIsLine(codec: Codec, torn: string, next: Event, n: nat, first: Event)
    requires Lossless(codec) && n <= |codec.encode(next)| && torn == codec.encode(next)[..n]
    ensures IsLine(torn + codec.encode(first))
  {
    assert codec.parse(codec.encode(next)) == Some(next);
    assert codec.parse(codec.encode(first)) == Some(first);
  }

  /** The unfinished line and the first one after it become one. */
  lemma InterruptedLines(codec: Codec, events: seq<Event>, next: Event, n: nat, more: seq<Event>)
    requires Lossless(codec) && n <= |codec.encode(next)| && more != []
    ensures var glued := codec.encode(next)[..n] + codec.encode(more[0]);
            Trimmed(Lines(Interrupted(codec, events, next, n, more))) ==
            Encoded(codec, events) + [glued] + Encoded(codec, more[1..])
  {
    hide IsLine, CleanLine, Lines, Unlines, Trimmed, Encoded, Lossless;
    var torn := codec.encode(next)[..n];
    GluedIsLine(codec, torn, next, n, more[0]);
    EncodedLines(codec, events);
    EncodedLines(codec, more[1..]);
    var lines := Encoded(codec, events) + [torn + codec.encode(more[0])] + Encoded(codec, more[1..]);
    TrimLines(lines);
    LinesRoundTrip(lines);
    assert more == [more[0]] + more[1..];
    InterruptedText(codec, events, torn, more[0], more[1..]);
  }

  /** What is read after a write broke off: an unfinished line takes the first
      event written after it with it, and nothing else is lost. A line that
      lacks only its break still reads, as long as nothing comes after it. */
  lemma UnfinishedLineTakesNextWithIt(codec: Codec, events: seq<Event>, next: Event, n: nat, more: seq<Event>)
    requires Lossless(codec) && Delimited(codec) && n <= |codec.encode(next)|
    ensures Healed(codec, Interrupted(codec, events, next, n, more)) ==
            if n == 0 then Distinct(events + more)
            else if more != [] then Distinct(events + more[1..])
            else if n < |codec.encode(next)| then Distinct(events)
            else Distinct(events + [next])
  {
    hide Healed, Lines, Trimmed, Parsed, Distinct, IsLine, CleanLine, Encoded, Except, Delimited, TrimEnd;
    var torn := codec.encode(next)[..n];
    if n == 0 {
      WrittenConcat(codec, events, more);
      assert Interrupted(codec, events, next, n, more) == Written(codec, events + more);
      WrittenReadsBack(codec, events + more);
    } else if more != [] {
      GluedLineIsSkipped(codec, events, next, n, more);
    } else {
      LastLineUnfinished(codec, events, next, n);
      assert Interrupted(codec, events, next, n, more) == Written(codec, events) + torn by {
        assert Written(codec, []) == "" by { NothingWritten(codec); }
      }
    }
  }

  lemma NothingWritten(codec: Codec)
    ensures Written(codec, []) == ""
  {
  }

  lemma GluedLineIsSkipped(codec: Codec, events: seq<Event>, next: Event, n: nat, more: seq<Event>)
    requires Lossless(codec) && Delimited(codec) && 0 < n <= |codec.encode(next)| && more != []
    ensures Healed(codec, Interrupted(codec, events, next, n, more)) == Distinct(events + more[1..])
  {
    hide Lines, Trimmed, Parsed, Distinct, Lossless, Written, Interrupted, TrimEnd;
    var glued := codec.encode(next)[..n] + codec.encode(more[0]);
    var before, after := Encoded(codec, events), Encoded(codec, more[1..]);
    assert codec.parse(glued) == None;
    InterruptedLines(codec, events, next, n, more);
    UnparsedLinesAreSkipped(codec, before + [glued] + after, glued);
    UnparsedLinesAreSkipped(codec, before + after, glued);
    ExceptConcat(before + [glued], after, glued);
    ExceptConcat(before, [glued], glued);
    ExceptConcat(before, after, glued);
    assert [glued][..0] == [] && Except([glued], glued) == [];
    assert Except(before, glued) + [] == Except(before, glued);
    EncodedConcat(codec, events, more[1..]);
    EncodedReadsBack(codec, events + more[1..]);
  }

  lemma LastLineUnfinished(codec: Codec, events: seq<Event>, next: Event, n: nat)
    requires Lossless(codec) && Delimited(codec) && 0 < n <= |codec.encode(next)|
    ensures Healed(codec, Written(codec, events) + codec.encode(next)[..n]) ==
            if n < |codec.encode(next)| then Distinct(events) else Distinct(events + [next])
  {
    hide Lines, TrimEnd, CleanLine;
    var line := codec.encode(next);
    assert IsLine(line) by {
      assert codec.parse(line) == Some(next);
    }
    if n < |line| {
      TornLineCostsOnlyItself(codec, events, line[..n]);
    } else {
      hide Trimmed, Parsed, Distinct, Unlines;
      assert line[..n] == line;
      EncodedLines(codec, events);
      TrimLines(Encoded(codec, events));
      TornLine(Encoded(codec, events), line);
      EncodedLines(codec, events + [next]);
      TrimLines(Encoded(codec, events + [next]));
      assert (events + [next])[..|events|] == events;
      assert Encoded(codec, events + [next]) == Encoded(codec, events) + [line];
      EncodedReadsBack(codec, events + [next]);
    }
  }

  /** A fact written after a broken-off write is read exactly when that write
      left no unfinished line. */
  lemma NextFactIsReadExactly(codec: Codec, events: seq<Event>, next: Event, n: nat, fact: Event)
    requires Lossless(codec) && Delimited(codec) && n <= |codec.encode(next)| && fact !in events
    ensures fact in Healed(codec, Interrupted(codec, events, next, n, [fact])) <==> n == 0
  {
    hide Healed, Interrupted, Lossless, Delimited;
    UnfinishedLineTakesNextWithIt(codec, events, next, n, [fact]);
    assert [fact][1..] == [] && events + [] == events;
    DistinctIsFirstOccurrences(events);
    DistinctIsFirstOccurrences(events + [fact]);
  }
}
