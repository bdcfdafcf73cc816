/** The prompt loop of an ACP turn: it reads what the agent sends until the turn
    ends, and persists and publishes each event as it comes. */
module PromptLoop {
  import opened Wrappers
  import opened RuntimeTypes
  import opened EventReplay
  import opened EventStream
  import opened StreamFacts

  /** What one pass of the loop finds. A pass that finds the interrupt marker,
      or the end of the grace period after it, reads no line. The overall
      deadline is the end of the list. */
  datatype Step =
    | Marker(answered: bool)
    | GraceOver
    | Silence
    | Unreadable
    | Ignored
    | PromptError
    | PromptResponse(status: string)
    | CancelResponse(reported: Option<string>)
    | ClientRequest(answered: bool)
    | Wire(update: Update, fault: Option<Fault>)

  /** A write that breaks off: after that many whole lines and that many
      characters of the next, and perhaps inside the character after them. */
  datatype Fault = Fault(lines: nat, characters: nat, split: bool)

  datatype Failure =
    | OpeningUnwritten
    | CancelUnsent
    | ReplyUnsent
    | PromptRejected
    | ReadFailed
    | LogUnwritten
    | TimedOut

  datatype Outcome = Finished(status: string) | Failed(failure: Failure)

  datatype Setup = Setup(turn: Turn, codec: Codec, hasLog: bool, hasSink: bool, hasMarkerPath: bool)

  // ---- When a run ends ----

  function Updates(steps: seq<Step>): seq<Update> {
    if steps == [] then []
    else
      var last := steps[|steps| - 1];
      Updates(steps[..|steps| - 1]) + if last.Wire? then [last.update] else []
  }

  predicate CancelSent(setup: Setup, steps: seq<Step>) {
    setup.hasMarkerPath && exists k | 0 <= k < |steps| :: steps[k].Marker?
  }

  /** Does a write of `added` lines break off? */
  predicate Unwritten(added: nat, fault: Option<Fault>) {
    fault.Some? && fault.value.lines < added
  }

  function Added(turn: Turn, events: seq<Event>, update: Update): nat {
    UpdateExtends(turn, events, update);
    |AfterUpdate(events, turn, update)| - |events|
  }

  /** How the run ends on this step, if it does, given the steps before it. */
  function Ending(setup: Setup, before: seq<Step>, step: Step): (ending: Option<Outcome>)
    ensures ending != Some(Failed(OpeningUnwritten)) && ending != Some(Failed(TimedOut))
  {
    match step
    case Marker(answered) =>
      if setup.hasMarkerPath && !CancelSent(setup, before) && !answered then Some(Failed(CancelUnsent)) else None
    case GraceOver => if CancelSent(setup, before) then Some(Finished("cancelled")) else None
    case Silence => None
    case Unreadable => Some(Failed(ReadFailed))
    case Ignored => None
    case PromptError => Some(Failed(PromptRejected))
    case PromptResponse(status) => Some(Finished(status))
    case CancelResponse(reported) => Some(Finished(reported.GetOr("cancelled")))
    case ClientRequest(answered) => if answered then None else Some(Failed(ReplyUnsent))
    case Wire(update, fault) =>
      if setup.hasLog && Unwritten(Added(setup.turn, Stream(setup.turn, Updates(before)), update), fault) then
        Some(Failed(LogUnwritten))
      else if IsTurnEnd(update.kind) then Some(Finished(update.status.GetOr("completed")))
      else None
  }

  /** The run took this many steps and ended as its last one says, or ran out
      of time. */
  predicate EndsBy(setup: Setup, steps: seq<Step>, taken: nat, outcome: Outcome)
    requires taken <= |steps|
  {
    && (forall k | 0 <= k < taken - 1 :: Ending(setup, steps[..k], steps[k]) == None)
    && if taken > 0 && Ending(setup, steps[..taken - 1], steps[taken - 1]).Some?
       then Ending(setup, steps[..taken - 1], steps[taken - 1]) == Some(outcome)
       else taken == |steps| && outcome == Failed(TimedOut)
  }

  // ---- The same, read off the last step ----

  /** The write of what this update adds breaks off. */
  predicate BreaksOff(setup: Setup, before: seq<Step>, step: Step) {
    && step.Wire? && setup.hasLog && step.fault.Some?
    && var held := Stream(setup.turn, Updates(before));
       |held| + step.fault.value.lines < |AfterUpdate(held, setup.turn, step.update)|
  }

  /** The agent answered the prompt with this status; or it reported one for the
      cancel request, or none and the word is `cancelled`; or the grace period
      after the marker is over; or it announced the end of the turn. */
  predicate FinishedBy(setup: Setup, before: seq<Step>, step: Step, status: string) {
    || step == PromptResponse(status)
    || step == CancelResponse(Some(status))
    || (step == CancelResponse(None) && status == "cancelled")
    || (step == GraceOver && status == "cancelled"
        && setup.hasMarkerPath && exists k | 0 <= k < |before| :: before[k].Marker?)
    || (step.Wire? && step.update.kind in {Some("TurnEnd"), Some("turn_end")} && !BreaksOff(setup, before, step)
        && (step.update.status == Some(status) || (step.update.status == None && status == "completed")))
  }

  /** Each failure has its own step. */
  predicate FailedBy(setup: Setup, before: seq<Step>, step: Step, failure: Failure) {
    match failure
    case PromptRejected => step == PromptError
    case ReadFailed => step == Unreadable
    case ReplyUnsent => step == ClientRequest(false)
    case CancelUnsent =>
      step == Marker(false) && setup.hasMarkerPath && forall k | 0 <= k < |before| :: !before[k].Marker?
    case LogUnwritten => BreaksOff(setup, before, step)
    case OpeningUnwritten => false
    case TimedOut => false
  }

  ghost predicate GoesOn(setup: Setup, before: seq<Step>, step: Step) {
    && (forall status :: !FinishedBy(setup, before, step, status))
    && (forall failure :: !FailedBy(setup, before, step, failure))
  }

  /** The steps before the last one let the run go on, and the last one says how
      it ended: it ran out of time exactly when that step would let it go on
      too, and then no step was left. */
  ghost predicate EndedBy(setup: Setup, steps: seq<Step>, taken: nat, outcome: Outcome)
    requires taken <= |steps|
  {
    && (forall k | 0 <= k < taken - 1 :: GoesOn(setup, steps[..k], steps[k]))
    && (taken == 0 ==> outcome == Failed(TimedOut))
    && (outcome == Failed(TimedOut) ==> taken == |steps|)
    && (taken > 0 ==>
          var before, last := steps[..taken - 1], steps[taken - 1];
          && (forall status :: outcome == Finished(status) <==> FinishedBy(setup, before, last, status))
          && (forall failure | failure != TimedOut ::
                outcome == Failed(failure) <==> FailedBy(setup, before, last, failure))
          && (outcome == Failed(TimedOut) <==> GoesOn(setup, before, last)))
  }

  lemma BreaksOffIs(setup: Setup, before: seq<Step>, step: Step)
    ensures BreaksOff(setup, before, step) <==>
            && step.Wire? && setup.hasLog
            && Unwritten(Added(setup.turn, Stream(setup.turn, Updates(before)), step.update), step.fault)
  {
    hide AfterUpdate, Stream, Updates;
    if step.Wire? {
      UpdateExtends(setup.turn, Stream(setup.turn, Updates(before)), step.update);
    }
  }

  lemma EndingIs(setup: Setup, before: seq<Step>, step: Step)
    ensures forall status ::
              Ending(setup, before, step) == Some(Finished(status)) <==> FinishedBy(setup, before, step, status)
    ensures forall failure ::
              Ending(setup, before, step) == Some(Failed(failure)) <==> FailedBy(setup, before, step, failure)
    ensures Ending(setup, before, step) == None <==> GoesOn(setup, before, step)
  {
    hide AfterUpdate, Stream, Updates, Added, BreaksOff;
    BreaksOffIs(setup, before, step);
    var ending := Ending(setup, before, step);
    assert ending.Some? && ending.value.Finished? ==> FinishedBy(setup, before, step, ending.value.status);
    assert ending.Some? && ending.value.Failed? ==> FailedBy(setup, before, step, ending.value.failure);
  }

  lemma {:induction false} RunIsTold(setup: Setup, steps: seq<Step>, taken: nat, outcome: Outcome)
    requires taken <= |steps| && EndsBy(setup, steps, taken, outcome) && outcome != Failed(OpeningUnwritten)
    ensures EndedBy(setup, steps, taken, outcome)
  {
    hide Ending, FinishedBy, FailedBy, GoesOn;
    forall k | 0 <= k < taken
      ensures Ending(setup, steps[..k], steps[k]) == None <==> GoesOn(setup, steps[..k], steps[k])
    {
      EndingIs(setup, steps[..k], steps[k]);
    }
    if taken > 0 {
      EndingIs(setup, steps[..taken - 1], steps[taken - 1]);
    }
  }

  lemma Nothing(setup: Setup)
    ensures Updates([]) == [] && !CancelSent(setup, []) && SaidInAll([]) == ""
    ensures Stream(setup.turn, []) == EmitGate([], setup.turn, Proposed)
  {
  }

  lemma UpdateExtends(turn: Turn, events: seq<Event>, update: Update)
    ensures events <= AfterUpdate(events, turn, update)
  {
    hide GateIds, SessionMergeGate, PatchEvidence, ToolEvidence, TurnEndEvidence, ContentEvidence, IsDiff;
  }

  lemma UpdatesStep(steps: seq<Step>, i: nat)
    requires i < |steps|
    ensures Updates(steps[..i + 1]) ==
            if steps[i].Wire? then Updates(steps[..i]) + [steps[i].update] else Updates(steps[..i])
  {
    assert steps[..i + 1][..i] == steps[..i];
    assert Updates(steps[..i]) + [] == Updates(steps[..i]);
  }

  lemma StreamStep(turn: Turn, updates: seq<Update>, update: Update)
    ensures Stream(turn, updates + [update]) == AfterUpdate(Stream(turn, updates), turn, update)
    ensures SaidInAll(updates + [update]) == SaidInAll(updates) + Said(update)
  {
    hide AfterUpdate, Said;
    assert (updates + [update])[..|updates|] == updates;
  }

  lemma CancelSentStep(setup: Setup, steps: seq<Step>, i: nat)
    requires i < |steps|
    ensures CancelSent(setup, steps[..i + 1]) <==>
            CancelSent(setup, steps[..i]) || (setup.hasMarkerPath && steps[i].Marker?)
  {
    var upTo, next := steps[..i], steps[..i + 1];
    assert forall k | 0 <= k < i :: upTo[k] == next[k];
    assert next[i] == steps[i];
  }

  // ---- Where the events go ----

  /** The text of a durable artifact; `broken` once a write has stopped inside a
      character, for then its bytes are not UTF-8 any more. */
  datatype File = File(text: string, broken: bool)

  /** What a reader gets of it. */
  function Contents(file: File): Option<string> {
    if file.broken then None else Some(file.text)
  }

  /** Characters of more than one byte (section 3 of RFC 3629). */
  predicate CanSplit(line: string, n: nat) {
    n < |line| && line[n] as int >= 0x80
  }

  function Smaller(a: nat, b: nat): nat {
    if a < b then a else b
  }

  /** A file after a write that succeeded, and after one that broke off. The
      line and its break are written one after the other, so a whole line may
      lack its break. */
  function Appended(codec: Codec, file: File, events: seq<Event>): File {
    file.(text := file.text + Written(codec, events))
  }

  function BrokenOff(codec: Codec, file: File, events: seq<Event>, fault: Fault): File
    requires fault.lines < |events|
  {
    var line := codec.encode(events[fault.lines]);
    var n := Smaller(fault.characters, |line|);
    File(file.text + Written(codec, events[..fault.lines]) + line[..n],
         file.broken || (fault.split && CanSplit(line, n)))
  }

  /** The durable artifact of the turn, and the events the live sink received. */
  class TurnOutput {
    const codec: Codec
    var file: File
    var sunk: seq<Event>

    constructor (codec: Codec, file: File, sunk: seq<Event>)
      ensures this.codec == codec && this.file == file && this.sunk == sunk
    {
      this.codec, this.file, this.sunk := codec, file, sunk;
    }

    /** Writes one line an event. A failed write leaves the lines before it and
        a beginning of its own. */
    method AppendRuntimeEvents(events: seq<Event>, fault: Option<Fault>) returns (ok: bool)
      modifies this`file
      ensures ok <==> !Unwritten(|events|, fault)
      ensures file == if ok then Appended(codec, old(file), events)
                      else BrokenOff(codec, old(file), events, fault.value)
    {
      hide Written;
      var i := 0;
      NothingWritten(codec);
      while i < |events|
        invariant 0 <= i <= |events|
        invariant file == Appended(codec, old(file), events[..i])
        invariant fault.Some? ==> i <= fault.value.lines || fault.value.lines >= |events|
      {
        var line := codec.encode(events[i]);
        if fault.Some? && fault.value.lines == i {
          var n := Smaller(fault.value.characters, |line|);
          file := File(file.text + line[..n], file.broken || (fault.value.split && CanSplit(line, n)));
          return false;
        }
        LineWritten(codec, old(file).text, events, i);
        file := file.(text := file.text + line + "\n");
        i := i + 1;
      }
      assert events[..i] == events;
      ok := true;
    }

    method Sink(events: seq<Event>)
      modifies this`sunk
      ensures sunk == old(sunk) + events
    {
      sunk := sunk + events;
    }
  }

  lemma LineWritten(codec: Codec, text: string, events: seq<Event>, i: nat)
    requires i < |events|
    ensures text + Written(codec, events[..i + 1]) ==
            text + Written(codec, events[..i]) + codec.encode(events[i]) + "\n"
  {
    hide Written;
    assert events[..i + 1] == events[..i] + [events[i]];
    WrittenConcat(codec, events[..i], [events[i]]);
    WrittenOne(codec, events[i]);
  }

  // ---- The loop ----

  /** Turns an update into events, then persists and publishes exactly those. */
  method TakeUpdate(setup: Setup, stream: TurnStream, output: TurnOutput, update: Update, fault: Option<Fault>)
    returns (ok: bool)
    requires stream.Valid() && stream.turn == setup.turn && output.codec == setup.codec
    modifies stream, output
    ensures stream.Valid()
    ensures stream.events == AfterUpdate(old(stream.events), setup.turn, update)
    ensures ok <==> !(setup.hasLog && Unwritten(Added(setup.turn, old(stream.events), update), fault))
    ensures var added := stream.events[|old(stream.events)|..];
            && output.file == (if !setup.hasLog then old(output.file)
                               else if ok then Appended(setup.codec, old(output.file), added)
                               else BrokenOff(setup.codec, old(output.file), added, fault.value))
            && output.sunk == old(output.sunk) + if setup.hasSink && ok then added else []
  {
    hide AfterUpdate;
    var before := |stream.events|;
    UpdateExtends(setup.turn, stream.events, update);
    stream.AppendUpdate(update);
    var added := stream.events[before..];
    ok := true;
    if setup.hasLog && before < |stream.events| {
      ok := output.AppendRuntimeEvents(added, fault);
    }
    if ok && before < |stream.events| && setup.hasSink {
      output.Sink(added);
    }
  }

  /** Does this sink hold what it held at the start and then, if it is in use,
      exactly these events? */
  predicate Holds(used: bool, start: seq<Event>, events: seq<Event>, now: seq<Event>) {
    now == start + if used then events else []
  }

  /** Does this file? */
  predicate FileHolds(setup: Setup, start: File, events: seq<Event>, now: File) {
    now == if setup.hasLog then Appended(setup.codec, start, events) else start
  }

  /** A failed write leaves the events up to the update it failed on, some but
      not all of that update's own, and a beginning of the next line. */
  ghost predicate HoldsPartly(setup: Setup, start: File, settled: seq<Event>, events: seq<Event>, now: File) {
    exists fault: Fault | |settled| <= fault.lines < |events| :: now == BrokenOff(setup.codec, start, events, fault)
  }

  lemma HoldsMore(used: bool, start: seq<Event>, events: seq<Event>, more: seq<Event>, now: seq<Event>)
    requires Holds(used, start, events, now) && events <= more
    ensures Holds(used, start, more, now + if used then more[|events|..] else [])
  {
    assert more == events + more[|events|..];
  }

  lemma FileHoldsMore(codec: Codec, start: File, events: seq<Event>, more: seq<Event>)
    requires events <= more
    ensures Appended(codec, Appended(codec, start, events), more[|events|..]) == Appended(codec, start, more)
  {
    hide Written;
    assert more == events + more[|events|..];
    WrittenConcat(codec, events, more[|events|..]);
  }

  lemma FileHoldsPartlyMore(setup: Setup, start: File, events: seq<Event>, more: seq<Event>, fault: Fault)
    requires events <= more && fault.lines < |more| - |events|
    ensures HoldsPartly(setup, start, events, more,
                        BrokenOff(setup.codec, Appended(setup.codec, start, events), more[|events|..], fault))
  {
    hide Written;
    var added := more[|events|..];
    var whole := fault.(lines := |events| + fault.lines);
    assert more[..whole.lines] == events + added[..fault.lines];
    WrittenConcat(setup.codec, events, added[..fault.lines]);
    assert BrokenOff(setup.codec, Appended(setup.codec, start, events), added, fault) ==
           BrokenOff(setup.codec, start, more, whole);
  }

  lemma FileHoldsNone(setup: Setup, start: File, events: seq<Event>, fault: Fault)
    requires fault.lines < |events|
    ensures HoldsPartly(setup, start, [], events, BrokenOff(setup.codec, start, events, fault))
  {
    hide BrokenOff;
  }

  /** Takes a line with an update. */
  method PassUpdate(setup: Setup, stream: TurnStream, output: TurnOutput, update: Update, fault: Option<Fault>,
                    said: string, ghost start: (File, seq<Event>))
    returns (ending: Option<Outcome>, message: string)
    requires stream.Valid() && stream.turn == setup.turn && output.codec == setup.codec
    requires FileHolds(setup, start.0, stream.events, output.file)
    requires Holds(setup.hasSink, start.1, stream.events, output.sunk)
    modifies stream, output
    ensures stream.Valid()
    ensures stream.events == AfterUpdate(old(stream.events), setup.turn, update)
    ensures ending == Some(Failed(LogUnwritten)) <==>
            setup.hasLog && Unwritten(Added(setup.turn, old(stream.events), update), fault)
    ensures ending != Some(Failed(LogUnwritten)) ==>
              && FileHolds(setup, start.0, stream.events, output.file)
              && Holds(setup.hasSink, start.1, stream.events, output.sunk)
              && message == said + Said(update)
              && ending == if IsTurnEnd(update.kind) then Some(Finished(update.status.GetOr("completed"))) else None
    ensures ending == Some(Failed(LogUnwritten)) ==>
              && HoldsPartly(setup, start.0, old(stream.events), stream.events, output.file)
              && Holds(setup.hasSink, start.1, old(stream.events), output.sunk)
  {
    hide AfterUpdate, IsTurnEnd, IsChunk;
    message, ending := said, None;
    ghost var file, sunk, settled := output.file, output.sunk, stream.events;
    UpdateExtends(setup.turn, stream.events, update);
    FileHoldsMore(setup.codec, start.0, settled, AfterUpdate(settled, setup.turn, update));
    HoldsMore(setup.hasSink, start.1, settled, AfterUpdate(settled, setup.turn, update), sunk);
    var ok := TakeUpdate(setup, stream, output, update, fault);
    if !ok {
      FileHoldsPartlyMore(setup, start.0, settled, stream.events, fault.value);
      return Some(Failed(LogUnwritten)), message;
    }
    if IsChunk(update.kind) && update.text.Some? {
      message := message + update.text.value;
    }
    if IsTurnEnd(update.kind) {
      ending := Some(Finished(update.status.GetOr("completed")));
    }
  }

  /** One pass of the loop. */
  method Pass(setup: Setup, stream: TurnStream, output: TurnOutput, step: Step, said: string, cancelled: bool,
              ghost before: seq<Step>, ghost start: (File, seq<Event>))
    returns (ending: Option<Outcome>, message: string, cancelSent: bool)
    requires stream.Valid() && stream.turn == setup.turn && output.codec == setup.codec
    requires stream.events == Stream(setup.turn, Updates(before)) && said == SaidInAll(Updates(before))
    requires cancelled == CancelSent(setup, before)
    requires FileHolds(setup, start.0, stream.events, output.file)
    requires Holds(setup.hasSink, start.1, stream.events, output.sunk)
    modifies stream, output
    ensures stream.Valid() && stream.events == Stream(setup.turn, Updates(before + [step]))
    ensures ending == Ending(setup, before, step)
    ensures ending == None ==> cancelSent == CancelSent(setup, before + [step])
    ensures ending != Some(Failed(LogUnwritten)) ==>
              && FileHolds(setup, start.0, stream.events, output.file)
              && Holds(setup.hasSink, start.1, stream.events, output.sunk)
              && message == SaidInAll(Updates(before + [step]))
    ensures ending == Some(Failed(LogUnwritten)) ==>
              && HoldsPartly(setup, start.0, old(stream.events), stream.events, output.file)
              && Holds(setup.hasSink, start.1, old(stream.events), output.sunk)
  {
    hide AfterUpdate, Added, Stream, Updates, SaidInAll, Said, Holds, FileHolds, HoldsPartly, CancelSent;
    UpdatesStep(before + [step], |before|);
    CancelSentStep(setup, before + [step], |before|);
    assert (before + [step])[..|before|] == before && (before + [step])[..|before| + 1] == before + [step];
    message, cancelSent, ending := said, cancelled, None;
    match step {
      case Marker(answered) =>
        if setup.hasMarkerPath && !cancelSent {
          if answered {
            cancelSent := true;
          } else {
            ending := Some(Failed(CancelUnsent));
          }
        }
      case GraceOver =>
        if cancelSent {
          ending := Some(Finished("cancelled"));
        }
      case Silence =>
      case Unreadable => ending := Some(Failed(ReadFailed));
      case Ignored =>
      case PromptError => ending := Some(Failed(PromptRejected));
      case PromptResponse(status) => ending := Some(Finished(status));
      case CancelResponse(reported) => ending := Some(Finished(reported.GetOr("cancelled")));
      case ClientRequest(answered) =>
        if !answered {
          ending := Some(Failed(ReplyUnsent));
        }
      case Wire(update, fault) =>
        StreamStep(setup.turn, Updates(before), update);
        ending, message := PassUpdate(setup, stream, output, update, fault, message, start);
    }
  }

  /** What the run leaves behind after `taken` steps. A failed write ends it
      with a beginning in the file and none of the failing update published. */
  ghost predicate Kept(setup: Setup, start: (File, seq<Event>), steps: seq<Step>, taken: nat, unwritten: bool,
                 file: File, sunk: seq<Event>)
    requires taken <= |steps|
  {
    var events := Stream(setup.turn, Updates(steps[..taken]));
    if unwritten then
      && taken > 0
      && var settled := Stream(setup.turn, Updates(steps[..taken - 1]));
      && HoldsPartly(setup, start.0, settled, events, file)
      && Holds(setup.hasSink, start.1, settled, sunk)
    else
      FileHolds(setup, start.0, events, file) && Holds(setup.hasSink, start.1, events, sunk)
  }

  method RunLoop(setup: Setup, stream: TurnStream, output: TurnOutput, steps: seq<Step>,
                 ghost start: (File, seq<Event>))
    returns (outcome: Outcome, message: string, taken: nat)
    requires stream.Valid() && stream.turn == setup.turn && stream.events == Stream(setup.turn, [])
    requires output.codec == setup.codec
    requires Kept(setup, start, steps, 0, false, output.file, output.sunk)
    modifies stream, output
    ensures taken <= |steps|
    ensures stream.events == Stream(setup.turn, Updates(steps[..taken]))
    ensures outcome != Failed(OpeningUnwritten) && EndsBy(setup, steps, taken, outcome)
    ensures Kept(setup, start, steps, taken, outcome == Failed(LogUnwritten), output.file, output.sunk)
    ensures outcome != Failed(LogUnwritten) ==> message == SaidInAll(Updates(steps[..taken]))
  {
    hide AfterUpdate, Ending, Updates, CancelSent, Stream, SaidInAll, HoldsPartly, Holds, FileHolds;
    Nothing(setup);
    message, taken := "", 0;
    var ending: Option<Outcome> := None;
    var cancelSent := false;
    while taken < |steps| && ending == None
      invariant taken <= |steps|
      invariant stream.Valid() && stream.turn == setup.turn
      invariant stream.events == Stream(setup.turn, Updates(steps[..taken]))
      invariant forall k | 0 <= k < taken - 1 :: Ending(setup, steps[..k], steps[k]) == None
      invariant if taken == 0 then ending == None else Ending(setup, steps[..taken - 1], steps[taken - 1]) == ending
      invariant ending == None ==> cancelSent == CancelSent(setup, steps[..taken])
      invariant Kept(setup, start, steps, taken, ending == Some(Failed(LogUnwritten)), output.file, output.sunk)
      invariant ending != Some(Failed(LogUnwritten)) ==> message == SaidInAll(Updates(steps[..taken]))
    {
      assert steps[..taken] + [steps[taken]] == steps[..taken + 1];
      ending, message, cancelSent :=
        Pass(setup, stream, output, steps[taken], message, cancelSent, steps[..taken], start);
      taken := taken + 1;
    }
    outcome := ending.GetOr(Failed(TimedOut));
  }

  /** Runs one prompt to its end. `taken` counts the passes of the loop.

      The run ends on the first step that ends it. However it ends, the events
      are the stream of the updates it took, the live sink received each of
      them once, in order, and the durable file holds them after what it held
      before. Only a failed write breaks this: it ends the run, and may leave a
      beginning of a line behind. */
  method RunPrompt(setup: Setup, steps: seq<Step>, opening: Option<Fault>, output: TurnOutput)
    returns (outcome: Outcome, events: seq<Event>, message: string, taken: nat)
    requires output.codec == setup.codec
    modifies output
    ensures taken <= |steps|
    ensures events == Stream(setup.turn, Updates(steps[..taken]))
    ensures outcome == Failed(OpeningUnwritten) <==> setup.hasLog && Unwritten(1, opening)
    ensures outcome == Failed(OpeningUnwritten) ==>
              && taken == 0 && output.sunk == old(output.sunk)
              && HoldsPartly(setup, old(output.file), [], events, output.file)
    ensures outcome != Failed(OpeningUnwritten) ==>
              && EndedBy(setup, steps, taken, outcome)
              && Kept(setup, (old(output.file), old(output.sunk)), steps, taken, outcome == Failed(LogUnwritten),
                      output.file, output.sunk)
    ensures outcome.Finished? ==> message == Reply(events)
  {
    hide AfterUpdate, EndsBy, EndedBy, Reply, HoldsPartly;
    var stream := new TurnStream(setup.turn);
    Nothing(setup);
    assert steps[..0] == [];
    if setup.hasLog {
      var ok := output.AppendRuntimeEvents(stream.events, opening);
      if !ok {
        FileHoldsNone(setup, old(output.file), stream.events, opening.value);
        return Failed(OpeningUnwritten), stream.events, "", 0;
      }
    }
    if setup.hasSink {
      output.Sink(stream.events);
    }
    outcome, message, taken := RunLoop(setup, stream, output, steps, (old(output.file), old(output.sunk)));
    events := stream.events;
    RunIsTold(setup, steps, taken, outcome);
    ReplyIsWhatWasSaid(setup.turn, Updates(steps[..taken]));
  }
}
