/** One plain Codex job: its child process, the monitor thread that waits for
    it, and one commander that interrupts it, interleaved in any order. */
module CodexJobProtocol {
  import opened Wrappers
  import opened Interrupts

  datatype LogRecord = LogRecord(status: Status, writer: Writer)

  type Log = seq<LogRecord>

  /** The record a reader of the log finds for the job. */
  function Latest(log: Log): LogRecord
    requires log != []
  {
    log[|log| - 1]
  }

  datatype MonitorAt =
    | Waiting                       // in `child.wait()`
    | Reaped                        // the child has exited
    | NoMarker                      // found no marker
    | MustRecord                    // found no cancelled record either
    | Ended(recorded: bool)

  datatype Outcome = AlreadyOver | Interrupted | Refused

  /** The commander keeps the status it read: the records it appends before it
      is done carry that status. */
  datatype CommanderAt =
    | Idle
    | HasRead(read: Status)
    | Marked(read: Status)
    | Requested(read: Status)
    | SawAlive(read: Status)
    | MustConfirm(read: Status)
    | Confirmed(read: Status)
    | MustReport(read: Status)
    | Returned(read: Status, outcome: Outcome)

  /** Remembered for the statements only: was the child alive when the marker
      was written, where was the monitor then, and where was it when the
      commander recorded the interrupt? */
  datatype History = History(markedBeforeExit: bool, markedAt: Option<MonitorAt>, settledAt: Option<MonitorAt>)

  datatype State = State(
    interrupt: Interrupt,
    log: Log,
    marker: bool,
    alive: bool,
    monitor: MonitorAt,
    commander: CommanderAt,
    history: History)

  const UNMARKED := History(false, None, None)

  function Start(interrupt: Interrupt): State {
    State(interrupt, [LogRecord(Running, Starter)], false, true, Waiting, Idle, UNMARKED)
  }

  datatype Action =
    | ChildExits
    | Reap
    | LookForMarker
    | LookForCancelled
    | RecordExit(success: bool)
    | ReadJob
    | WriteMarker
    | AppendRequested
    | CheckAlive
    | Terminate(confirmed: bool)
    | CheckStopped
    | AppendFailure
    | AppendSettled

  function Append(s: State, status: Status, writer: Writer): State {
    s.(log := s.log + [LogRecord(status, writer)])
  }

  /** The state after a step, if the step is possible. */
  function Step(s: State, a: Action): Option<State>
    requires s.log != []
  {
    match a
    case ChildExits =>
      if s.alive then Some(s.(alive := false)) else None
    // the monitor
    case Reap =>
      if s.monitor.Waiting? && !s.alive then Some(s.(monitor := Reaped)) else None
    case LookForMarker =>
      if s.monitor.Reaped? then Some(s.(monitor := if s.marker then Ended(false) else NoMarker)) else None
    case LookForCancelled =>
      if s.monitor.NoMarker? then
        Some(s.(monitor := if Latest(s.log).status == Cancelled then Ended(false) else MustRecord))
      else None
    case RecordExit(success) =>
      if s.monitor.MustRecord? then
        Some(Append(s, if success then Finished else Failed, Monitor).(monitor := Ended(true)))
      else None
    // the commander
    case ReadJob =>
      if s.commander.Idle? then
        var status := Latest(s.log).status;
        Some(s.(commander := if AlreadySettled(status) then Returned(status, AlreadyOver) else HasRead(status)))
      else None
    case WriteMarker =>
      if s.commander.HasRead? then
        Some(s.(marker := true, commander := Marked(s.commander.read),
                history := History(s.alive, Some(s.monitor), None)))
      else None
    case AppendRequested =>
      if s.commander.Marked? then
        Some(Append(s, s.commander.read, Commander).(commander := Requested(s.commander.read)))
      else None
    case CheckAlive =>
      if s.commander.Requested? then
        Some(s.(commander := if s.alive then SawAlive(s.commander.read) else MustConfirm(s.commander.read)))
      else None
    case Terminate(confirmed) =>
      if s.commander.SawAlive? then
        Some(if confirmed then s.(alive := false, commander := MustConfirm(s.commander.read))
             else s.(commander := MustReport(s.commander.read)))
      else None
    case CheckStopped =>
      if s.commander.MustConfirm? then
        Some(s.(commander := if s.alive then MustReport(s.commander.read) else Confirmed(s.commander.read)))
      else None
    case AppendFailure =>
      if s.commander.MustReport? then
        Some(Append(s, s.commander.read, Commander).(commander := Returned(s.commander.read, Refused)))
      else None
    case AppendSettled =>
      if s.commander.Confirmed? then
        Some(Append(s, JobStatus(s.interrupt), Commander).(commander := Returned(s.commander.read, Interrupted),
                                                           history := s.history.(settledAt := Some(s.monitor))))
      else None
  }

  /** The state a run of steps leads to. */
  function Run(s: State, actions: seq<Action>): Option<State>
    requires s.log != []
    decreases actions
  {
    if actions == [] then Some(s)
    else
      match Step(s, actions[0])
      case None => None
      case Some(next) => Run(next, actions[1..])
  }

  // ---- What every reachable state satisfies ----

  predicate HasWritten(log: Log, writer: Writer) {
    exists i | 0 <= i < |log| :: log[i].writer == writer
  }

  /** A record that claims the job is over is never ahead of the child. */
  ghost predicate NoLiveChildHidden(s: State) {
    forall i | 0 <= i < |s.log| :: s.log[i].status != Running ==> !s.alive
  }

  /** The monitor has not looked for the marker. */
  predicate BeforeLook(monitor: MonitorAt) {
    monitor.Waiting? || monitor.Reaped?
  }

  predicate MarkedBeforeLook(history: History) {
    history.markedAt.Some? && BeforeLook(history.markedAt.value)
  }

  predicate MarkedAtEnd(history: History) {
    history.markedAt.Some? && history.markedAt.value.Ended?
  }

  ghost predicate MonitorInv(s: State) {
    && (!s.monitor.Waiting? ==> !s.alive)
    && (HasWritten(s.log, Monitor) <==> s.monitor == Ended(true))
    && (s.marker <==> s.history.markedAt.Some?)
    && (s.history.markedBeforeExit ==> MarkedBeforeLook(s.history))
    && (MarkedBeforeLook(s.history) ==> BeforeLook(s.monitor) || s.monitor == Ended(false))
    && (s.marker && s.alive ==> s.history.markedBeforeExit)
    && (MarkedAtEnd(s.history) ==> s.monitor.Ended?)
    && (s.monitor == Ended(false) ==> s.marker || HasWritten(s.log, Commander))
  }

  /** Has the termination failed? */
  predicate Failing(c: CommanderAt) {
    c.MustReport? || (c.Returned? && c.outcome == Refused)
  }

  ghost predicate CommanderInv(s: State) {
    var c := s.commander;
    && (s.marker <==> !c.Idle? && !c.HasRead? && !(c.Returned? && c.outcome == AlreadyOver))
    && (HasWritten(s.log, Commander) ==> s.marker && !c.Marked?)
    && (!c.Idle? && c.read != Running ==> s.monitor == Ended(true))
    && (!c.Idle? && !(c.Returned? && c.outcome == AlreadyOver) ==> !AlreadySettled(c.read))
    && (c.MustConfirm? || c.Confirmed? ==> !s.alive)
    && (c.SawAlive? || Failing(c) ==> s.history.markedBeforeExit)
  }

  /** Who wrote the last record, and what it says. */
  ghost predicate LatestInv(s: State)
    requires s.log != []
  {
    var last, c := Latest(s.log), s.commander;
    match last.writer
    case Starter =>
      && |s.log| == 1 && last.status == Running
      && (c.Idle? || c.HasRead? || c.Marked?)
    case Monitor => last.status == Finished || last.status == Failed
    case Approver => false
    case Commander =>
      && !c.Idle? && !c.HasRead? && !c.Marked?
      && last.status == (if c.Returned? && c.outcome == Interrupted then JobStatus(s.interrupt) else c.read)
  }

  ghost predicate Inv(s: State) {
    && s.log != []
    && NoLiveChildHidden(s) && MonitorInv(s) && CommanderInv(s) && LatestInv(s)
    && OverMeansRecorded(s) && SettledInv(s) && ShortInv(s)
  }

  /** An unmarked job has one record of its start, and one of its end. */
  ghost predicate ShortInv(s: State)
    requires s.log != []
  {
    && s.log[0].writer == Starter
    && (!s.marker ==> |s.log| == if s.monitor == Ended(true) then 2 else 1)
  }

  /** Did the monitor, when the commander recorded the interrupt, no longer look
      at anything that could stop it? Having found no marker it still looks for
      a cancelled job, which does not stop it for a pause or a kill. */
  predicate Overtaken(interrupt: Interrupt, settledAt: MonitorAt) {
    settledAt.MustRecord? || (settledAt.NoMarker? && interrupt != Cancel)
  }

  /** What the monitor does after the interrupt was recorded. */
  ghost predicate SettledInv(s: State)
    requires s.log != []
  {
    var c, settledAt := s.commander, s.history.settledAt;
    && (settledAt.Some? <==> c.Returned? && c.outcome == Interrupted)
    && (settledAt.Some? && MarkedAtEnd(s.history) ==> settledAt.value.Ended?)
    && (settledAt.Some? ==>
          if Overtaken(s.interrupt, settledAt.value) then
            if s.monitor.NoMarker? then Latest(s.log).writer == Commander && s.interrupt != Cancel
            else if s.monitor.MustRecord? then Latest(s.log).writer == Commander
            else s.monitor == Ended(true) && Latest(s.log).writer == Monitor
          else
            && Latest(s.log).writer == Commander && !s.monitor.MustRecord?
            && (s.monitor.NoMarker? ==> s.interrupt == Cancel))
  }

  /** A commander that found the job over found the monitor's record. */
  ghost predicate OverMeansRecorded(s: State) {
    s.commander.Returned? && s.commander.outcome == AlreadyOver ==> HasWritten(s.log, Monitor)
  }

  /** A longer log has the old writers and those of its new records. */
  lemma WritersOf(s: State, t: State)
    requires s.log == t.log || (|t.log| == |s.log| + 1 && t.log[..|s.log|] == s.log)
    ensures forall w :: HasWritten(t.log, w) <==> HasWritten(s.log, w) || (t.log != s.log && Latest(t.log).writer == w)
  {
    assert forall i | 0 <= i < |s.log| :: t.log[i] == s.log[i];
    assert t.log != s.log ==> t.log[|s.log|] == Latest(t.log);
  }

  lemma StepHidesNoLiveChild(s: State, a: Action)
    requires Inv(s) && Step(s, a).Some?
    ensures NoLiveChildHidden(Step(s, a).value)
  {
  }

  lemma StepKeepsMonitorInv(s: State, a: Action)
    requires Inv(s) && Step(s, a).Some?
    ensures MonitorInv(Step(s, a).value)
  {
    WritersOf(s, Step(s, a).value);
  }

  lemma StepKeepsCommanderInv(s: State, a: Action)
    requires Inv(s) && Step(s, a).Some?
    ensures CommanderInv(Step(s, a).value)
  {
  }

  lemma StepKeepsLatestInv(s: State, a: Action)
    requires Inv(s) && Step(s, a).Some?
    ensures Step(s, a).value.log != [] && LatestInv(Step(s, a).value)
  {
  }

  lemma StepKeepsSettledInv(s: State, a: Action)
    requires Inv(s) && Step(s, a).Some?
    ensures Step(s, a).value.log != [] && SettledInv(Step(s, a).value)
  {
  }

  lemma StepKeepsShortInv(s: State, a: Action)
    requires Inv(s) && Step(s, a).Some?
    ensures Step(s, a).value.log != [] && ShortInv(Step(s, a).value)
  {
    hide NoLiveChildHidden, LatestInv, OverMeansRecorded, SettledInv;
  }

  lemma StepKeepsOverMeansRecorded(s: State, a: Action)
    requires Inv(s) && Step(s, a).Some?
    ensures OverMeansRecorded(Step(s, a).value)
  {
    var t := Step(s, a).value;
    assert forall i | 0 <= i < |s.log| :: t.log[i] == s.log[i];
  }

  lemma StepKeepsInv(s: State, a: Action)
    requires Inv(s) && Step(s, a).Some?
    ensures Inv(Step(s, a).value)
  {
    hide NoLiveChildHidden, MonitorInv, CommanderInv, LatestInv, OverMeansRecorded, SettledInv, ShortInv;
    StepKeepsShortInv(s, a);
    StepKeepsSettledInv(s, a);
    StepKeepsOverMeansRecorded(s, a);
    StepHidesNoLiveChild(s, a);
    StepKeepsMonitorInv(s, a);
    StepKeepsCommanderInv(s, a);
    StepKeepsLatestInv(s, a);
  }

  /** What a step never undoes. */
  ghost predicate Later(s: State, t: State) {
    && s.log <= t.log
    && (!s.alive ==> !t.alive)
    && s.interrupt == t.interrupt
    && (s.commander.Returned? ==> t.commander == s.commander && t.history == s.history)
    && (s.history.markedAt.Some? ==> t.history.markedAt == s.history.markedAt)
    && (HasWritten(s.log, Monitor) ==> HasWritten(t.log, Monitor))
  }

  lemma StepIsMonotone(s: State, a: Action)
    requires Inv(s) && Step(s, a).Some?
    ensures Later(s, Step(s, a).value)
  {
    var t := Step(s, a).value;
    assert forall i | 0 <= i < |s.log| :: t.log[i] == s.log[i];
  }

  lemma {:induction false} RunKeepsInv(s: State, actions: seq<Action>)
    requires Inv(s) && Run(s, actions).Some?
    ensures Inv(Run(s, actions).value)
    ensures Later(s, Run(s, actions).value)
    decreases actions
  {
    hide Inv, Step, Later;
    if actions == [] {
      LaterReflexive(s);
    } else {
      InvHasLog(s);
      var next := Step(s, actions[0]).value;
      StepKeepsInv(s, actions[0]);
      InvHasLog(next);
      StepIsMonotone(s, actions[0]);
      RunKeepsInv(next, actions[1..]);
      LaterTransitive(s, next, Run(next, actions[1..]).value);
    }
  }

  lemma InvHasLog(s: State)
    requires Inv(s)
    ensures s.log != []
  {
  }

  lemma LaterReflexive(s: State)
    ensures Later(s, s)
  {
  }

  lemma LaterTransitive(s: State, t: State, u: State)
    requires Later(s, t) && Later(t, u)
    ensures Later(s, u)
  {
  }

  lemma StartInv(interrupt: Interrupt)
    ensures Inv(Start(interrupt))
  {
  }

  // ---- The protocol's promises ----

  /** In every interleaving, any record but `running` is appended only after
      the child has exited. */
  lemma NoRecordHidesALiveChild(interrupt: Interrupt, actions: seq<Action>, i: nat)
    requires Run(Start(interrupt), actions).Some?
    ensures var t := Run(Start(interrupt), actions).value;
            i < |t.log| && t.log[i].status != Running ==> !t.alive
  {
    StartInv(interrupt);
    RunKeepsInv(Start(interrupt), actions);
  }

  /** A marker written before the monitor looked for it silences the monitor
      for good, and the status of a successful commander is then final. */
  lemma MarkerBeforeLookIsFinal(interrupt: Interrupt, actions: seq<Action>, more: seq<Action>)
    requires Run(Start(interrupt), actions).Some?
    requires var t := Run(Start(interrupt), actions).value;
             t.log != [] && MarkedBeforeLook(t.history) && Run(t, more).Some?
    ensures var t := Run(Start(interrupt), actions).value;
            var u := Run(t, more).value;
            && u.log != [] && !HasWritten(u.log, Monitor)
            && (t.commander.Returned? && t.commander.outcome == Interrupted ==>
                Latest(u.log).status == JobStatus(interrupt))
  {
    StartInv(interrupt);
    RunKeepsInv(Start(interrupt), actions);
    RunKeepsInv(Run(Start(interrupt), actions).value, more);
  }

  /** In particular one written while the child was alive. */
  lemma MarkerBeforeExitIsFinal(interrupt: Interrupt, actions: seq<Action>, more: seq<Action>)
    requires Run(Start(interrupt), actions).Some?
    requires var t := Run(Start(interrupt), actions).value;
             t.log != [] && t.history.markedBeforeExit && Run(t, more).Some?
    ensures var t := Run(Start(interrupt), actions).value;
            var u := Run(t, more).value;
            && u.log != [] && !HasWritten(u.log, Monitor)
            && (t.commander.Returned? && t.commander.outcome == Interrupted ==>
                Latest(u.log).status == JobStatus(interrupt))
  {
    hide Run;
    StartInv(interrupt);
    RunKeepsInv(Start(interrupt), actions);
    MarkerBeforeLookIsFinal(interrupt, actions, more);
  }

  /** After a confirmed interrupt the job ends with the status of the interrupt
      exactly when the monitor could still be stopped as it was recorded. */
  lemma ConfirmedStatusStaysExactlyUnlessOvertaken(interrupt: Interrupt, actions: seq<Action>)
    requires Run(Start(interrupt), actions).Some?
    ensures var t := Run(Start(interrupt), actions).value;
            t.log != [] &&
            (t.monitor.Ended? && t.commander.Returned? && t.commander.outcome == Interrupted ==>
             && t.history.settledAt.Some?
             && (Latest(t.log).status == JobStatus(interrupt) <==> !Overtaken(interrupt, t.history.settledAt.value)))
  {
    StartInv(interrupt);
    RunKeepsInv(Start(interrupt), actions);
  }

  lemma StepFails(s: State, a: Action)
    requires Inv(s) && Step(s, a).Some?
    ensures Failing(Step(s, a).value.commander) <==> Failing(s.commander) || a == Terminate(false)
  {
    hide NoLiveChildHidden, MonitorInv, LatestInv, OverMeansRecorded, SettledInv;
  }

  /** A commander is refused exactly when its termination failed. */
  lemma {:induction false} FailingMeansTerminationFailed(s: State, actions: seq<Action>)
    requires Inv(s) && Run(s, actions).Some?
    ensures Failing(Run(s, actions).value.commander) <==> Failing(s.commander) || Terminate(false) in actions
    decreases actions
  {
    hide Inv, Step, Failing;
    if actions != [] {
      InvHasLog(s);
      StepKeepsInv(s, actions[0]);
      InvHasLog(Step(s, actions[0]).value);
      StepFails(s, actions[0]);
      FailingMeansTerminationFailed(Step(s, actions[0]).value, actions[1..]);
      assert actions == [actions[0]] + actions[1..];
    }
  }

  /** Once both threads are done the job is left `running` exactly when the
      command was refused, which is exactly when a termination failed. */
  lemma JobLeftRunningExactlyWhenRefused(interrupt: Interrupt, actions: seq<Action>)
    requires Run(Start(interrupt), actions).Some?
    ensures var t := Run(Start(interrupt), actions).value;
            t.log != [] &&
            (t.monitor.Ended? && (t.commander.Idle? || t.commander.Returned?) ==>
             && (Latest(t.log).status == Running <==> t.commander.Returned? && t.commander.outcome == Refused)
             && (Latest(t.log).status == Running <==> Terminate(false) in actions))
  {
    hide Run;
    StartInv(interrupt);
    RunKeepsInv(Start(interrupt), actions);
    FailingMeansTerminationFailed(Start(interrupt), actions);
  }

  // ---- What the monitor records ----

  /** Has the monitor recorded this status? */
  predicate Recorded(log: Log, status: Status) {
    exists i | 0 <= i < |log| :: log[i] == LogRecord(status, Monitor)
  }

  lemma StepRecords(s: State, a: Action, status: Status)
    requires s.log != [] && Step(s, a).Some?
    ensures Recorded(Step(s, a).value.log, status) <==>
            || Recorded(s.log, status)
            || (status == Finished && a == RecordExit(true)) || (status == Failed && a == RecordExit(false))
  {
    var t := Step(s, a).value;
    assert forall i | 0 <= i < |s.log| :: t.log[i] == s.log[i];
    if a.RecordExit? {
      assert t.log[|s.log|] == LogRecord(if a == RecordExit(true) then Finished else Failed, Monitor);
    }
  }

  lemma StepMarks(s: State, a: Action)
    requires s.log != [] && Step(s, a).Some?
    ensures Step(s, a).value.marker <==> s.marker || a == WriteMarker
  {
  }

  /** In every run, whoever interrupts it: the monitor records `finished` only
      for a process that exited with success, `failed` only for one that did
      not, and no other status; and a marker is there only if it was written. */
  lemma {:induction false} MonitorRecordsTheExit(s: State, actions: seq<Action>, status: Status)
    requires Inv(s) && Run(s, actions).Some?
    ensures var t := Run(s, actions).value;
            Recorded(t.log, status) <==>
            || Recorded(s.log, status)
            || (status == Finished && RecordExit(true) in actions) || (status == Failed && RecordExit(false) in actions)
    ensures Run(s, actions).value.marker <==> s.marker || WriteMarker in actions
    decreases actions
  {
    hide Inv, Step, Recorded;
    if actions != [] {
      InvHasLog(s);
      StepKeepsInv(s, actions[0]);
      InvHasLog(Step(s, actions[0]).value);
      StepRecords(s, actions[0], status);
      StepMarks(s, actions[0]);
      MonitorRecordsTheExit(Step(s, actions[0]).value, actions[1..], status);
      assert actions == [actions[0]] + actions[1..];
    }
  }

  /** A job nobody interrupts ends as its process did. */
  lemma UninterruptedJobEndsAsItsProcess(interrupt: Interrupt, actions: seq<Action>)
    requires Run(Start(interrupt), actions).Some? && WriteMarker !in actions
    requires Run(Start(interrupt), actions).value.monitor.Ended?
    ensures var log := Run(Start(interrupt), actions).value.log;
            && log != []
            && (Latest(log).status == Finished <==> RecordExit(true) in actions)
            && (Latest(log).status == Failed <==> RecordExit(false) in actions)
            && (RecordExit(true) in actions <==> RecordExit(false) !in actions)
  {
    hide Run;
    StartInv(interrupt);
    RunKeepsInv(Start(interrupt), actions);
    MonitorRecordsTheExit(Start(interrupt), actions, Finished);
    MonitorRecordsTheExit(Start(interrupt), actions, Failed);
    OnlyRecordIsLatest(Run(Start(interrupt), actions).value);
  }

  /** With no marker the log is the start of the job and its end. */
  lemma OnlyRecordIsLatest(t: State)
    requires Inv(t) && !t.marker && t.monitor.Ended?
    ensures Latest(t.log).status == Finished || Latest(t.log).status == Failed
    ensures forall status :: Recorded(t.log, status) <==> status == Latest(t.log).status
  {
    assert t.monitor == Ended(true);
    assert t.log[1] == Latest(t.log) == LogRecord(Latest(t.log).status, Monitor);
  }

  /** A commander stands down exactly if the monitor has recorded success before
      it reads the job; it does not for a job that has failed. */
  lemma AlreadyOverExactlyWhenFinished(interrupt: Interrupt, before: seq<Action>)
    requires Run(Start(interrupt), before).Some?
    requires var s := Run(Start(interrupt), before).value; s.log != [] && Step(s, ReadJob).Some?
    ensures var c := Step(Run(Start(interrupt), before).value, ReadJob).value.commander;
            if RecordExit(true) in before then c == Returned(Finished, AlreadyOver)
            else c == HasRead(if RecordExit(false) in before then Failed else Running)
  {
    hide Run;
    StartInv(interrupt);
    RunKeepsInv(Start(interrupt), before);
    MonitorRecordsTheExit(Start(interrupt), before, Finished);
    MonitorRecordsTheExit(Start(interrupt), before, Failed);
    var s := Run(Start(interrupt), before).value;
    if s.monitor == Ended(true) {
      OnlyRecordIsLatest(s);
    } else {
      NothingRecorded(s);
    }
  }

  lemma NothingRecorded(s: State)
    requires Inv(s) && !s.marker && s.monitor != Ended(true)
    ensures Latest(s.log).status == Running
    ensures forall status :: !Recorded(s.log, status)
  {
    assert Latest(s.log) == s.log[0];
  }

  // ---- The exceptions do happen ----

  lemma RunCons(s: State, a: Action, rest: seq<Action>)
    requires s.log != [] && Step(s, a).Some?
    ensures Step(s, a).value.log != [] && Run(s, [a] + rest) == Run(Step(s, a).value, rest)
  {
    assert ([a] + rest)[1..] == rest;
  }

  /** One step more. */
  lemma {:induction false} Then(s: State, actions: seq<Action>, t: State, a: Action, u: State)
    requires s.log != [] && Run(s, actions) == Some(t)
    requires t.log != [] && Step(t, a) == Some(u)
    ensures Run(s, actions + [a]) == Some(u)
    decreases actions
  {
    hide Step;
    if actions == [] {
      assert [] + [a] == [a];
    } else {
      var next := Step(s, actions[0]).value;
      RunCons(s, actions[0], actions[1..] + [a]);
      assert [actions[0]] + (actions[1..] + [a]) == actions + [a];
      Then(next, actions[1..], t, a, u);
    }
  }

  function Log1(): Log { [LogRecord(Running, Starter)] }
  function Log2(): Log { Log1() + [LogRecord(Running, Commander)] }
  function Log3(interrupt: Interrupt): Log { Log2() + [LogRecord(JobStatus(interrupt), Commander)] }

  function RefusedState(interrupt: Interrupt): State {
    State(interrupt, Log2() + [LogRecord(Running, Commander)], true, true, Waiting, Returned(Running, Refused),
          History(true, Some(Waiting), None))
  }

  lemma TerminationMayFail(interrupt: Interrupt) returns (actions: seq<Action>)
    ensures Run(Start(interrupt), actions) == Some(RefusedState(interrupt))
  {
    hide Run;
    var s := Start(interrupt);
    var h := History(true, Some(Waiting), None);
    actions := [];
    RunNothing(s);
    var s1 := State(interrupt, Log1(), false, true, Waiting, HasRead(Running), UNMARKED);
    actions := TakeStep(s, actions, s, ReadJob, s1);
    var s2 := State(interrupt, Log1(), true, true, Waiting, Marked(Running), h);
    actions := TakeStep(s, actions, s1, WriteMarker, s2);
    var s3 := State(interrupt, Log2(), true, true, Waiting, Requested(Running), h);
    actions := TakeStep(s, actions, s2, AppendRequested, s3);
    var s4 := State(interrupt, Log2(), true, true, Waiting, SawAlive(Running), h);
    actions := TakeStep(s, actions, s3, CheckAlive, s4);
    var s5 := State(interrupt, Log2(), true, true, Waiting, MustReport(Running), h);
    actions := TakeStep(s, actions, s4, Terminate(false), s5);
    actions := TakeStep(s, actions, s5, AppendFailure, RefusedState(interrupt));
  }

  /** A refused interrupt leaves a dead job `running`: termination fails, the
      child exits by itself, and the monitor respects the marker. */
  lemma RefusedInterruptStrandsJob(interrupt: Interrupt) returns (actions: seq<Action>)
    ensures match Run(Start(interrupt), actions)
            case Some(t) =>
              && t.log != [] && t.monitor.Ended? && t.commander.Returned? && !t.alive
              && Latest(t.log).status == Running
            case None => false
  {
    hide Run;
    var s := Start(interrupt);
    var s6 := RefusedState(interrupt);
    actions := TerminationMayFail(interrupt);
    var s7 := s6.(alive := false);
    actions := TakeStep(s, actions, s6, ChildExits, s7);
    var s8 := s7.(monitor := Reaped);
    actions := TakeStep(s, actions, s7, Reap, s8);
    var s9 := s7.(monitor := Ended(false));
    actions := TakeStep(s, actions, s8, LookForMarker, s9);
  }

  /** The monitor has looked for the marker, the commander has yet to write it. */
  function Looked(interrupt: Interrupt, monitor: MonitorAt): State {
    State(interrupt, Log1(), false, false, monitor, HasRead(Running), UNMARKED)
  }

  lemma MonitorMayLookFirst(interrupt: Interrupt, monitor: MonitorAt) returns (actions: seq<Action>)
    requires monitor.NoMarker? || monitor.MustRecord?
    ensures Run(Start(interrupt), actions) == Some(Looked(interrupt, monitor))
  {
    hide Run;
    var s := Start(interrupt);
    actions := [];
    RunNothing(s);
    var s1 := State(interrupt, Log1(), false, true, Waiting, HasRead(Running), UNMARKED);
    actions := TakeStep(s, actions, s, ReadJob, s1);
    var s2 := State(interrupt, Log1(), false, false, Waiting, HasRead(Running), UNMARKED);
    actions := TakeStep(s, actions, s1, ChildExits, s2);
    var s3 := State(interrupt, Log1(), false, false, Reaped, HasRead(Running), UNMARKED);
    actions := TakeStep(s, actions, s2, Reap, s3);
    actions := TakeStep(s, actions, s3, LookForMarker, Looked(interrupt, NoMarker));
    if monitor.MustRecord? {
      actions := TakeStep(s, actions, Looked(interrupt, NoMarker), LookForCancelled, Looked(interrupt, MustRecord));
    }
  }

  /** The commander has marked and asked, the monitor has stopped looking. */
  function Late(interrupt: Interrupt, markedAt: MonitorAt): State {
    State(interrupt, Log2(), true, false, MustRecord, Requested(Running), History(false, Some(markedAt), None))
  }

  lemma MarkerMayComeLate(interrupt: Interrupt, monitor: MonitorAt) returns (actions: seq<Action>)
    requires monitor.NoMarker? || monitor.MustRecord?
    ensures Run(Start(interrupt), actions) == Some(Late(interrupt, monitor))
  {
    hide Run;
    var s := Start(interrupt);
    var h := History(false, Some(monitor), None);
    actions := MonitorMayLookFirst(interrupt, monitor);
    var s6 := State(interrupt, Log1(), true, false, monitor, Marked(Running), h);
    actions := TakeStep(s, actions, Looked(interrupt, monitor), WriteMarker, s6);
    var s7 := State(interrupt, Log2(), true, false, monitor, Requested(Running), h);
    actions := TakeStep(s, actions, s6, AppendRequested, s7);
    if monitor.NoMarker? {
      actions := TakeStep(s, actions, s7, LookForCancelled, Late(interrupt, monitor));
    }
  }

  /** A monitor that looked for the marker just before it was written may
      record `finished` over a confirmed interrupt, wherever it then was. */
  lemma LateMarkerMayBeOverwritten(interrupt: Interrupt, monitor: MonitorAt) returns (actions: seq<Action>)
    requires monitor.NoMarker? || monitor.MustRecord?
    ensures match Run(Start(interrupt), actions)
            case Some(t) => ConfirmedAndOver(t, monitor) && Latest(t.log).status == Finished
            case None => false
  {
    hide Run;
    var s := Start(interrupt);
    var h := History(false, Some(monitor), None);
    actions := MarkerMayComeLate(interrupt, monitor);
    var s8 := Late(interrupt, monitor);
    var s9 := State(interrupt, Log2(), true, false, MustRecord, MustConfirm(Running), h);
    actions := TakeStep(s, actions, s8, CheckAlive, s9);
    var s10 := State(interrupt, Log2(), true, false, MustRecord, Confirmed(Running), h);
    actions := TakeStep(s, actions, s9, CheckStopped, s10);
    var settled := h.(settledAt := Some(MustRecord));
    var s11 := State(interrupt, Log3(interrupt), true, false, MustRecord, Returned(Running, Interrupted), settled);
    actions := TakeStep(s, actions, s10, AppendSettled, s11);
    var s12 := State(interrupt, Log3(interrupt) + [LogRecord(Finished, Monitor)], true, false, Ended(true),
                     Returned(Running, Interrupted), settled);
    actions := TakeStep(s, actions, s11, RecordExit(true), s12);
  }

  /** Both threads are done, the interrupt was confirmed, and the marker was
      written while the monitor was there. */
  predicate ConfirmedAndOver(t: State, markedAt: MonitorAt) {
    && t.log != [] && t.monitor.Ended? && t.commander.Returned? && t.commander.outcome == Interrupted
    && t.history.markedAt == Some(markedAt)
  }

  /** Where the monitor is when the marker is written decides: before it looks,
      and once it is done, a confirmed status is always the last one; in
      between it may be overwritten. */
  lemma ConfirmedStatusIsSafeExactlyOutsideTheLook(interrupt: Interrupt, markedAt: MonitorAt)
    ensures BeforeLook(markedAt) || markedAt.Ended? <==>
            forall actions | Run(Start(interrupt), actions).Some? ::
              var t := Run(Start(interrupt), actions).value;
              ConfirmedAndOver(t, markedAt) ==> Latest(t.log).status == JobStatus(interrupt)
  {
    hide Run;
    if BeforeLook(markedAt) || markedAt.Ended? {
      forall actions | Run(Start(interrupt), actions).Some?
        ensures var t := Run(Start(interrupt), actions).value;
                ConfirmedAndOver(t, markedAt) ==> Latest(t.log).status == JobStatus(interrupt)
      {
        StartInv(interrupt);
        RunKeepsInv(Start(interrupt), actions);
      }
    } else {
      var actions := LateMarkerMayBeOverwritten(interrupt, markedAt);
      assert Run(Start(interrupt), actions).Some?;
    }
  }

  lemma RunNothing(s: State)
    requires s.log != []
    ensures Run(s, []) == Some(s)
  {
  }

  lemma TakeStep(s: State, actions: seq<Action>, t: State, a: Action, u: State) returns (longer: seq<Action>)
    requires s.log != [] && Run(s, actions) == Some(t)
    requires t.log != [] && Step(t, a) == Some(u)
    ensures Run(s, longer) == Some(u)
  {
    longer := actions + [a];
    Then(s, actions, t, a, u);
  }
}
