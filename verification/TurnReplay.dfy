/** From the prompt loop to a reconnecting client: what is read back of what a
    turn wrote, and what a failed write costs. */
module TurnReplay {
  import opened Dedup
  import opened Wrappers
  import opened RuntimeTypes
  import opened EventStream
  import opened EventReplay
  import opened PromptLoop

  /** What a runner leaves in its file: all of its stream, or, if a write broke
      off, a beginning of it and a beginning of the next line. */
  ghost predicate Leaves(setup: Setup, start: File, events: seq<Event>, unwritten: bool, file: File) {
    if unwritten then HoldsPartly(setup, start, [], events, file) else FileHolds(setup, start, events, file)
  }

  /** However a run ends, that is what it leaves. */
  lemma RunLeaves(setup: Setup, start: (File, seq<Event>), steps: seq<Step>, taken: nat, unwritten: bool,
                  file: File, sunk: seq<Event>)
    requires taken <= |steps| && Kept(setup, start, steps, taken, unwritten, file, sunk)
    ensures Leaves(setup, start.0, Stream(setup.turn, Updates(steps[..taken])), unwritten, file)
  {
    hide BrokenOff, FileHolds, Holds;
  }

  /** The file the runner of a turn was given: its start facts, whole. */
  function Opened(setup: Setup, input: Option<string>): File {
    File(Written(setup.codec, StartEvents(setup.turn.sessionId, input)), false)
  }

  predicate EndsLine(file: File) {
    file.text != "" && file.text[|file.text| - 1] == '\n'
  }

  /** How far the writing got: that many events of the stream whole, and that
      many characters of the next. */
  predicate GotTo(setup: Setup, input: Option<string>, events: seq<Event>, written: nat, cut: nat, file: File) {
    && written <= |events| && (written == |events| ==> cut == 0)
    && (written < |events| ==> cut <= |setup.codec.encode(events[written])|)
    && file.text ==
       Written(setup.codec, StartEvents(setup.turn.sessionId, input) + events[..written]) +
       if written == |events| then "" else setup.codec.encode(events[written])[..cut]
  }

  lemma FileHoldsBeginning(setup: Setup, input: Option<string>, events: seq<Event>, unwritten: bool, file: File)
    returns (written: nat, cut: nat)
    requires setup.hasLog && Leaves(setup, Opened(setup, input), events, unwritten, file)
    ensures GotTo(setup, input, events, written, cut, file)
    ensures unwritten <==> written < |events|
    ensures file.broken ==> unwritten
  {
    hide Written;
    var start := StartEvents(setup.turn.sessionId, input);
    if unwritten {
      var fault: Fault :| fault.lines < |events| && file == BrokenOff(setup.codec, Opened(setup, input), events, fault);
      written, cut := fault.lines, Smaller(fault.characters, |setup.codec.encode(events[fault.lines])|);
    } else {
      written, cut := |events|, 0;
      assert events[..written] == events;
    }
    WrittenConcat(setup.codec, start, events[..written]);
  }

  /** The text ends with a line break exactly when no line is unfinished. */
  lemma EndsLineExactly(setup: Setup, input: Option<string>, events: seq<Event>, written: nat, cut: nat, file: File)
    requires Lossless(setup.codec) && GotTo(setup, input, events, written, cut, file)
    ensures EndsLine(file) <==> cut == 0
  {
    hide Written;
    var whole := StartEvents(setup.turn.sessionId, input) + events[..written];
    assert whole != [];
    var front, last := whole[..|whole| - 1], whole[|whole| - 1];
    assert whole == front + [last];
    WrittenConcat(setup.codec, front, [last]);
    WrittenOne(setup.codec, last);
    if cut > 0 {
      var line := setup.codec.encode(events[written]);
      assert setup.codec.parse(line) == Some(events[written]);
      assert line[..cut][cut - 1] == line[cut - 1] && line[cut - 1] in line;
    }
  }

  lemma WholeReadsBack(codec: Codec, whole: seq<Event>, end: seq<Event>)
    requires Lossless(codec) && NoRepeats(whole + end)
    ensures Healed(codec, Written(codec, whole) + "" + Written(codec, end)) == whole + end
  {
    hide Written, Healed;
    WrittenConcat(codec, whole, end);
    WrittenReadsBack(codec, whole + end);
    DistinctFixes(whole + end);
    assert Written(codec, whole) + "" == Written(codec, whole);
  }

  lemma InterruptedReadsBack(codec: Codec, whole: seq<Event>, next: Event, cut: nat, end: seq<Event>)
    requires Lossless(codec) && Delimited(codec) && cut <= |codec.encode(next)|
    requires NoRepeats(whole + end) && NoRepeats(whole + [next]) && |end| <= 1
    ensures Healed(codec, Interrupted(codec, whole, next, cut, end)) ==
            if cut == 0 then whole + end
            else if end == [] && cut == |codec.encode(next)| then whole + [next]
            else whole
  {
    hide Healed, Interrupted, Lossless, Delimited, Distinct;
    UnfinishedLineTakesNextWithIt(codec, whole, next, cut, end);
    assert forall i | 0 <= i < |whole| :: (whole + [next])[i] == whole[i];
    DistinctFixes(whole);
    DistinctFixes(whole + end);
    DistinctFixes(whole + [next]);
    if end != [] {
      assert end[1..] == [] && whole + [] == whole;
    }
  }

  /** What the turn wrote never repeats, and neither does what it was about to
      write. */
  lemma TurnPartsDiffer(turn: Turn, updates: seq<Update>, written: nat, input: Option<string>, status: Option<string>)
    requires written <= |Stream(turn, updates)|
    ensures var whole := StartEvents(turn.sessionId, input) + Stream(turn, updates)[..written];
            && NoRepeats(whole + EndEvents(turn.sessionId, status))
            && (written < |Stream(turn, updates)| ==>
                && NoRepeats(whole + [Stream(turn, updates)[written]])
                && whole + [Stream(turn, updates)[written]] ==
                   StartEvents(turn.sessionId, input) + Stream(turn, updates)[..written + 1])
  {
    hide Stream, StartEvents, EndEvents, NoRepeats;
    var start, events := StartEvents(turn.sessionId, input), Stream(turn, updates);
    TurnHasNoRepeats(turn, updates, written, input, status);
    if written < |events| {
      TurnHasNoRepeats(turn, updates, written + 1, input, None);
      EndIsOne(turn.sessionId, None);
      assert start + events[..written] + [events[written]] == start + events[..written + 1] + [];
    }
  }

  /** What a reader finds once the closing fact, if there is one, was appended.
      If a write stopped inside a character, nothing at all; else every event
      that was written whole, once and in order, and the closing fact unless it
      ended up on an unfinished line. */
  lemma TurnReadsBack(setup: Setup, updates: seq<Update>, input: Option<string>, status: Option<string>,
                      written: nat, cut: nat, file: File)
    requires Lossless(setup.codec) && Delimited(setup.codec)
    requires GotTo(setup, input, Stream(setup.turn, updates), written, cut, file)
    ensures var start, events, end := StartEvents(setup.turn.sessionId, input), Stream(setup.turn, updates),
                                      EndEvents(setup.turn.sessionId, status);
            ReadBack(setup.codec, Contents(Appended(setup.codec, file, end))) ==
            if file.broken then []
            else if cut == 0 then start + events[..written] + end
            else if end == [] && cut == |setup.codec.encode(events[written])| then start + events[..written + 1]
            else start + events[..written]
  {
    hide Stream, Written, Healed, Lossless, Delimited, StartEvents, EndEvents, NoRepeats;
    var codec, events := setup.codec, Stream(setup.turn, updates);
    var whole := StartEvents(setup.turn.sessionId, input) + events[..written];
    var end := EndEvents(setup.turn.sessionId, status);
    EndIsOne(setup.turn.sessionId, status);
    TurnPartsDiffer(setup.turn, updates, written, input, status);
    if written == |events| {
      WholeReadsBack(codec, whole, end);
    } else {
      InterruptedReadsBack(codec, whole, events[written], cut, end);
    }
  }

  lemma EndIsOne(sessionId: string, status: Option<string>)
    ensures EndEvents(sessionId, status) == [] <==> status == None
    ensures |EndEvents(sessionId, status)| <= 1
    ensures EndEvents(sessionId, None) == []
  {
  }

  /** The same for whatever the runner left. */
  lemma WrittenTurnReadsBack(setup: Setup, updates: seq<Update>, unwritten: bool,
                             input: Option<string>, status: Option<string>, file: File) returns (written: nat)
    requires Lossless(setup.codec) && Delimited(setup.codec) && setup.hasLog
    requires Leaves(setup, Opened(setup, input), Stream(setup.turn, updates), unwritten, file)
    ensures written <= |Stream(setup.turn, updates)| && (unwritten <==> written < |Stream(setup.turn, updates)|)
    ensures var start, events, end := StartEvents(setup.turn.sessionId, input), Stream(setup.turn, updates),
                                      EndEvents(setup.turn.sessionId, status);
            var read := ReadBack(setup.codec, Contents(Appended(setup.codec, file, end)));
            && (!unwritten ==> read == start + events + end)
            && (file.broken ==> read == [])
            && (!file.broken && EndsLine(file) ==> read == start + events[..written] + end)
            && (!file.broken && !EndsLine(file) ==>
                read == start + events[..written] || (status == None && read == start + events[..written + 1]))
  {
    hide Stream, Written, Healed, Lossless, Delimited, Leaves, GotTo, StartEvents, Appended, ReadBack, EndsLine;
    var cut: nat;
    written, cut := FileHoldsBeginning(setup, input, Stream(setup.turn, updates), unwritten, file);
    EndsLineExactly(setup, input, Stream(setup.turn, updates), written, cut, file);
    TurnReadsBack(setup, updates, input, status, written, cut, file);
    EndIsOne(setup.turn.sessionId, status);
    CutBound(setup, input, Stream(setup.turn, updates), written, cut, file);
    assert Stream(setup.turn, updates)[..|Stream(setup.turn, updates)|] == Stream(setup.turn, updates);
  }

  lemma CutBound(setup: Setup, input: Option<string>, events: seq<Event>, written: nat, cut: nat, file: File)
    requires GotTo(setup, input, events, written, cut, file)
    ensures written <= |events| && (written == |events| ==> cut == 0)
  {
  }

  /** The closing fact of a turn is read back exactly when the last write before
      it left the file with its last line finished, and as text. */
  lemma ClosingFactIsReadExactly(setup: Setup, updates: seq<Update>, unwritten: bool,
                                 input: Option<string>, word: string, file: File)
    requires Lossless(setup.codec) && Delimited(setup.codec) && setup.hasLog
    requires Leaves(setup, Opened(setup, input), Stream(setup.turn, updates), unwritten, file)
    ensures var closing := Event(0, SessionEnded(setup.turn.sessionId, word));
            closing in ReadBack(setup.codec, Contents(Appended(setup.codec, file, [closing]))) <==>
            !file.broken && EndsLine(file)
  {
    hide Stream, Written, Healed, Lossless, Delimited, Leaves, Appended, ReadBack, EndsLine, Contents;
    var written := WrittenTurnReadsBack(setup, updates, unwritten, input, Some(word), file);
    var closing := Event(0, SessionEnded(setup.turn.sessionId, word));
    TurnHasNoRepeats(setup.turn, updates, written, input, Some(word));
    var whole := StartEvents(setup.turn.sessionId, input) + Stream(setup.turn, updates)[..written];
    var all := whole + [closing];
    assert all[|whole|] == closing;
    assert closing !in whole by {
      assert forall i | 0 <= i < |whole| :: all[i] == whole[i];
    }
  }

  /** One character of the opening gate is enough: the gate was not written, the
      turn failed, and the fact that says so is not read. */
  lemma ClosingFactMayBeLost(setup: Setup, input: Option<string>, word: string)
    requires Lossless(setup.codec) && Delimited(setup.codec) && setup.hasLog
    ensures var closing := Event(0, SessionEnded(setup.turn.sessionId, word));
            var events := Stream(setup.turn, []);
            && |events| == 1
            && var file := BrokenOff(setup.codec, Opened(setup, input), events, Fault(0, 1, false));
            ReadBack(setup.codec, Contents(Appended(setup.codec, file, [closing]))) ==
            StartEvents(setup.turn.sessionId, input)
  {
    hide Written, Healed, StartEvents, SessionMergeGate;
    var events := Stream(setup.turn, []);
    var line := setup.codec.encode(events[0]);
    assert line != [] by {
      assert setup.codec.parse(line) == Some(events[0]);
      assert IsLine(line);
    }
    var file := BrokenOff(setup.codec, Opened(setup, input), events, Fault(0, 1, false));
    var start := StartEvents(setup.turn.sessionId, input);
    NothingWritten(setup.codec);
    assert events[..0] == [] && start + [] == start;
    assert GotTo(setup, input, events, 0, 1, file);
    TurnReadsBack(setup, [], input, Some(word), 0, 1, file);
  }

  /** A write that stops inside a character takes the whole turn with it. */
  lemma SplitCharacterLosesTheTurn(setup: Setup, input: Option<string>, updates: seq<Update>, fault: Fault,
                                   status: Option<string>)
    requires fault.lines < |Stream(setup.turn, updates)| && fault.split
    requires CanSplit(setup.codec.encode(Stream(setup.turn, updates)[fault.lines]), fault.characters)
    ensures var file := BrokenOff(setup.codec, Opened(setup, input), Stream(setup.turn, updates), fault);
            ReadBack(setup.codec, Contents(Appended(setup.codec, file, EndEvents(setup.turn.sessionId, status)))) == []
  {
    hide Stream;
  }
}
