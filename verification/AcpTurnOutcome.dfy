/** How a turn that nobody interrupts is recorded. */
module AcpTurnOutcome {
  import opened Wrappers
  import opened Interrupts
  import opened AcpTurnProtocol

  /** The end the agent reported, or a failure if it reported none. */
  ghost predicate RecordedAsReported(s: State) {
    var at, final, last := s.runner.at, s.runner.final, Latest(s.shared.log);
    !s.shared.marker ==>
      && (at.MustComplete? ==>
            && (forall w | final == EndedWith(w) :: at.verdict == w)
            && (final == Errored ==> at.verdict == Failed))
      && (at.Ended? ==>
            && last.writer == Monitor
            && (forall w | final == EndedWith(w) :: last.status == w)
            && (final == Errored ==> last.status == Failed))
  }

  lemma RunnerRecordsAsReported(s: State, a: RunnerAction)
    requires Inv(s) && RecordedAsReported(s) && RunnerStep(s, a).Some?
    ensures RecordedAsReported(RunnerStep(s, a).value)
  {
    hide CacheInv, StoppedInv, EarlyMarkInv, KilledInv, VerdictInv, LatestInv, SettledInv, StoredInv, RetiredInv,
         RefusalInv, ConfirmedInv, LateMarkInv;
    if a.JudgeByLog? && !s.shared.marker {
      UnmarkedTurnIsOpen(s);
    }
    hide LogInv, CommanderInv, LoopInv, Retire, Append, Latest, Published;
  }

  /** A commander writes nothing to the log before it has written its marker. */
  lemma CommanderMarksFirst(s: State, a: CommanderAction)
    requires CommanderInv(s) && CommanderStep(s, a).Some? && !CommanderStep(s, a).value.shared.marker
    ensures var t := CommanderStep(s, a).value;
            !s.shared.marker && t.shared.log == s.shared.log && t.runner == s.runner
  {
    hide Latest, Append;
  }

  lemma CommanderRecordsAsReported(s: State, a: CommanderAction)
    requires Inv(s) && RecordedAsReported(s) && CommanderStep(s, a).Some?
    ensures RecordedAsReported(CommanderStep(s, a).value)
  {
    hide CommanderStep, CacheInv, LogInv, CommanderInv, StoppedInv, LoopInv, EarlyMarkInv, KilledInv, VerdictInv,
         LatestInv, SettledInv, StoredInv, RetiredInv, RefusalInv, ConfirmedInv, LateMarkInv;
    if !CommanderStep(s, a).value.shared.marker {
      CommanderMarksFirst(s, a);
    }
  }

  // ---- What a run tells about its actions ----

  /** The end the agent reports is the only one, and stays. */
  lemma RunnerKeepsFinal(s: State, a: RunnerAction, w: Status)
    requires LoopInv(s) && RunnerStep(s, a).Some?
    ensures RunnerStep(s, a).value.runner.final == EndedWith(w) <==>
            s.runner.final == EndedWith(w) || a == EndLoop(w)
    ensures RunnerStep(s, a).value.shared.marker == s.shared.marker
  {
    hide Retire, Append, Latest, Published, InterruptedStatus, EvidenceStatus;
  }

  lemma CommanderKeepsFinal(s: State, a: CommanderAction)
    requires CommanderInv(s) && CommanderStep(s, a).Some?
    ensures CommanderStep(s, a).value.runner == s.runner
    ensures CommanderStep(s, a).value.shared.marker <==> s.shared.marker || a == WriteMarker
  {
    hide Append, Latest;
  }

  lemma StepTells(s: State, a: Action, w: Status)
    requires Inv(s) && RecordedAsReported(s) && Step(s, a).Some?
    ensures var t := Step(s, a).value;
            && RecordedAsReported(t)
            && (t.runner.final == EndedWith(w) <==> s.runner.final == EndedWith(w) || a == ByRunner(EndLoop(w)))
            && (t.shared.marker <==> s.shared.marker || a == ByCommander(WriteMarker))
  {
    hide CacheInv, LogInv, CommanderInv, StoppedInv, LoopInv, EarlyMarkInv, KilledInv, VerdictInv, LatestInv,
         SettledInv, StoredInv, RetiredInv, RefusalInv, ConfirmedInv, LateMarkInv, RunnerStep, CommanderStep;
    match a {
      case ByRunner(r) =>
        RunnerRecordsAsReported(s, r);
        RunnerKeepsFinal(s, r, w);
      case ByCommander(c) =>
        CommanderRecordsAsReported(s, c);
        CommanderKeepsFinal(s, c);
      case _ =>
    }
  }

  lemma {:induction false} RunTells(s: State, actions: seq<Action>, w: Status)
    requires Inv(s) && RecordedAsReported(s) && Run(s, actions).Some?
    ensures var t := Run(s, actions).value;
            && RecordedAsReported(t)
            && (t.runner.final == EndedWith(w) <==>
                s.runner.final == EndedWith(w) || ByRunner(EndLoop(w)) in actions)
            && (t.shared.marker <==> s.shared.marker || ByCommander(WriteMarker) in actions)
    decreases actions
  {
    hide Inv, Step, RecordedAsReported;
    if actions != [] {
      StepKeepsInv(s, actions[0]);
      StepTells(s, actions[0], w);
      RunTells(Step(s, actions[0]).value, actions[1..], w);
      assert actions == [actions[0]] + actions[1..];
    }
  }

  /** A turn nobody interrupts ends with a record of its monitor: the status the
      agent reported, or `failed` if it reported none. */
  lemma UninterruptedTurnIsRecordedAsReported(interrupt: Interrupt, echo: bool, cached: bool, priorAlive: bool,
                                              actions: seq<Action>, w: Status)
    requires Run(Start(interrupt, echo, cached, priorAlive), actions).Some?
    requires ByCommander(WriteMarker) !in actions
    requires Run(Start(interrupt, echo, cached, priorAlive), actions).value.runner.at.Ended?
    ensures var last := Latest(Run(Start(interrupt, echo, cached, priorAlive), actions).value.shared.log);
            && last.writer == Monitor
            && (ByRunner(EndLoop(w)) in actions ==> last.status == w)
            && ((forall v :: ByRunner(EndLoop(v)) !in actions) ==> last.status == Failed)
  {
    hide Run;
    var s := Start(interrupt, echo, cached, priorAlive);
    var t := Run(s, actions).value;
    StartInv(interrupt, echo, cached, priorAlive);
    RunTells(s, actions, w);
    if t.runner.final.EndedWith? {
      RunTells(s, actions, t.runner.final.status);
    }
  }

  /** A commander stands down exactly if, before it reads the job, the turn has
      ended as the agent reported it to be finished or cancelled. */
  lemma AlreadyOverExactlyWhenReported(interrupt: Interrupt, echo: bool, cached: bool, priorAlive: bool,
                                       before: seq<Action>)
    requires var s := Run(Start(interrupt, echo, cached, priorAlive), before);
             s.Some? && CommanderStep(s.value, ReadJob).Some?
    ensures var s := Run(Start(interrupt, echo, cached, priorAlive), before).value;
            OutcomeOf(CommanderStep(s, ReadJob).value.commander) == Some(AlreadyOver) <==>
            && s.runner.at.Ended?
            && (ByRunner(EndLoop(Finished)) in before || ByRunner(EndLoop(Cancelled)) in before)
  {
    hide Run;
    var s := Start(interrupt, echo, cached, priorAlive);
    var t := Run(s, before).value;
    StartInv(interrupt, echo, cached, priorAlive);
    RunKeepsInv(s, before);
    RunTells(s, before, Finished);
    RunTells(s, before, Cancelled);
    hide CacheInv, LogInv, StoppedInv, EarlyMarkInv, KilledInv, VerdictInv, LatestInv, SettledInv, StoredInv,
         RetiredInv, RefusalInv, ConfirmedInv, LateMarkInv;
    if !t.runner.at.Ended? {
      UnmarkedTurnIsOpen(t);
    }
    hide Latest;
  }
}
