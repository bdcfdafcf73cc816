/** Runs of an ACP turn in which a promise of the interrupt protocol fails, and
    with them the exact moments at which it may. */
module AcpTurnWitnesses {
  import opened Wrappers
  import opened Interrupts
  import opened AcpTurnProtocol

  /** One step more. */
  lemma {:induction false} RunThen(s: State, actions: seq<Action>, t: State, a: Action)
    requires Run(s, actions) == Some(t) && Step(t, a).Some?
    ensures Run(s, actions + [a]) == Step(t, a)
    decreases actions
  {
    hide Step;
    var longer := actions + [a];
    if actions == [] {
      assert longer == [a] && [a][1..] == [];
    } else {
      RunThen(Step(s, actions[0]).value, actions[1..], t, a);
      assert longer[1..] == actions[1..] + [a];
    }
  }

  lemma Then(s: State, actions: seq<Action>, t: State, a: Action) returns (longer: seq<Action>, u: State)
    requires Run(s, actions) == Some(t) && Step(t, a).Some?
    ensures Some(u) == Step(t, a) && Run(s, longer) == Some(u)
  {
    hide Step, Run;
    RunThen(s, actions, t, a);
    longer, u := actions + [a], Step(t, a).value;
  }

  lemma RunNothing(s: State)
    ensures Run(s, []) == Some(s)
  {
  }

  // ---- The runner's part ----

  /** The child runs and the runner may still cache it without having seen an
      interrupt. */
  predicate MayStillStore(at: RunnerAt) {
    at.Prompting? || at.MustFlush? || at.MustReadMarker? || at.MustDecide? || at.MustInsert?
  }

  function At(at: RunnerAt): Runner {
    Runner(at, false, if at.Prompting? then Errored else EndedWith(Finished), false)
  }

  predicate Undisturbed(s: State, at: RunnerAt) {
    && s.runner == At(at) && s.commander.Idle? && s.history == NO_HISTORY
    && s.shared.alive && s.shared.cache.Empty? && !s.shared.marker
    && Latest(s.shared.log) == TurnRecord(Running, true, Monitor)
  }

  lemma TurnReachesLoop(interrupt: Interrupt, echo: bool) returns (actions: seq<Action>, t: State)
    ensures Run(Start(interrupt, echo, false, false), actions) == Some(t)
    ensures t.interrupt == interrupt && t.echo == echo && Undisturbed(t, Prompting)
  {
    hide Run;
    var s := Start(interrupt, echo, false, false);
    RunNothing(s);
    actions, t := Then(s, [], s, ByRunner(TakeResident(true)));
    actions, t := Then(s, actions, t, ByRunner(Spawn(true)));
    actions, t := Then(s, actions, t, ByRunner(PublishPid));
    actions, t := Then(s, actions, t, ByRunner(EnterLoop));
  }

  /** The runner goes on by one phase, and no interrupt stops it. */
  lemma RunnerGoesOn(s0: State, actions: seq<Action>, s: State) returns (longer: seq<Action>, t: State)
    requires Run(s0, actions) == Some(s) && s.shared.alive
    requires MayStillStore(s.runner.at) && s.runner == At(s.runner.at)
    requires s.runner.at.MustReadMarker? ==> !s.shared.marker || s.interrupt != Pause
    ensures Run(s0, longer) == Some(t)
    ensures t.commander == s.commander && t.history == s.history && t.interrupt == s.interrupt && t.echo == s.echo
    ensures t.runner == (match s.runner.at
                         case Prompting => At(MustFlush)
                         case MustFlush => At(MustReadMarker)
                         case MustReadMarker => At(MustDecide)
                         case MustDecide => At(MustInsert)
                         case _ => At(MustJudge))
    ensures t.shared == s.shared.(cache := if s.runner.at.MustInsert? then Current else s.shared.cache,
                                  cancelLogged := if s.runner.at.MustFlush? then s.echo else s.shared.cancelLogged)
  {
    hide Run;
    var a := match s.runner.at
             case Prompting => EndLoop(Finished)
             case MustFlush => FlushLog
             case MustReadMarker => ReadPauseMarker
             case MustDecide => StoreOrKill
             case _ => InsertResident;
    longer, t := Then(s0, actions, s, ByRunner(a));
  }

  function Rank(at: RunnerAt): nat {
    match at case Prompting => 5 case MustFlush => 4 case MustReadMarker => 3 case MustDecide => 2 case _ => 1
  }

  lemma {:induction false} TurnReaches(interrupt: Interrupt, at: RunnerAt) returns (actions: seq<Action>, t: State)
    requires MayStillStore(at)
    ensures Run(Start(interrupt, false, false, false), actions) == Some(t)
    ensures t.interrupt == interrupt && !t.echo && Undisturbed(t, at)
    decreases 5 - Rank(at)
  {
    hide Run, Step;
    if at.Prompting? {
      actions, t := TurnReachesLoop(interrupt, false);
    } else {
      var before := match at
                    case MustFlush => Prompting
                    case MustReadMarker => MustFlush
                    case MustDecide => MustReadMarker
                    case _ => MustDecide;
      actions, t := TurnReaches(interrupt, before);
      actions, t := RunnerGoesOn(Start(interrupt, false, false, false), actions, t);
    }
  }

  /** Unless it is paused, the runner ends up caching the running child. */
  lemma {:induction false} RunnerStores(s0: State, actions: seq<Action>, s: State)
    returns (longer: seq<Action>, t: State)
    requires Run(s0, actions) == Some(s) && s.shared.alive
    requires MayStillStore(s.runner.at) && s.runner == At(s.runner.at)
    requires !s.shared.marker || s.interrupt != Pause
    ensures Run(s0, longer) == Some(t)
    ensures t.commander == s.commander && t.history == s.history && t.interrupt == s.interrupt && t.echo == s.echo
    ensures t.runner == At(MustJudge) && t.shared.alive && t.shared.cache.Current?
    ensures t.shared.log == s.shared.log && t.shared.marker == s.shared.marker
    decreases Rank(s.runner.at)
  {
    hide Run, Step;
    longer, t := RunnerGoesOn(s0, actions, s);
    if !s.runner.at.MustInsert? {
      longer, t := RunnerStores(s0, longer, t);
    }
  }

  // ---- The commander's part ----

  /** The commander marks the job and finds its child alive, without grace. */
  lemma CommanderFindsAlive(s0: State, actions: seq<Action>, s: State) returns (longer: seq<Action>, t: State)
    requires Run(s0, actions) == Some(s)
    requires s.commander.HasRead? && s.commander.read.pid && s.shared.alive
    ensures Run(s0, longer) == Some(t)
    ensures t.commander == SawAlive(s.commander.read) && t.runner == s.runner
    ensures t.interrupt == s.interrupt && t.echo == s.echo
    ensures t.shared == s.shared.(marker := true, log := t.shared.log)
    ensures t.history == s.history.(markedAt := Some(s.runner.at))
  {
    hide Run;
    longer, t := Then(s0, actions, s, ByCommander(WriteMarker));
    longer, t := Then(s0, longer, t, ByCommander(AppendRequested));
    longer, t := Then(s0, longer, t, ByCommander(AwaitGrace(false)));
    longer, t := Then(s0, longer, t, ByCommander(CheckAlive));
  }

  /** The termination fails. */
  lemma CommanderIsRefused(s0: State, actions: seq<Action>, s: State) returns (longer: seq<Action>, t: State)
    requires Run(s0, actions) == Some(s) && s.interrupt != Pause
    requires s.commander.SawAlive? && s.shared.cache.Empty?
    ensures Run(s0, longer) == Some(t)
    ensures t.commander == Returned(Refused) && t.runner == s.runner
    ensures t.interrupt == s.interrupt && t.echo == s.echo
    ensures t.shared == s.shared.(log := t.shared.log)
    ensures t.history.markedAt == s.history.markedAt
  {
    hide Run;
    longer, t := Then(s0, actions, s, ByCommander(Terminate(false)));
    longer, t := Then(s0, longer, t, ByCommander(AppendFailure));
    longer, t := Then(s0, longer, t, ByCommander(RetireResident));
  }

  /** A marked job is confirmed stopped, whether or not it still ran. */
  lemma CommanderConfirms(s0: State, actions: seq<Action>, s: State) returns (longer: seq<Action>, t: State)
    requires Run(s0, actions) == Some(s) && s.commander.Marked? && s.commander.read.pid
    ensures Run(s0, longer) == Some(t)
    ensures t.commander == Returned(Interrupted(false)) && t.runner == s.runner
    ensures t.interrupt == s.interrupt && t.echo == s.echo
    ensures t.history.markedAt == s.history.markedAt
  {
    hide Run;
    longer, t := Then(s0, actions, s, ByCommander(AppendRequested));
    longer, t := Then(s0, longer, t, ByCommander(AwaitGrace(false)));
    longer, t := Then(s0, longer, t, ByCommander(CheckAlive));
    if s.shared.alive {
      longer, t := Then(s0, longer, t, ByCommander(Terminate(true)));
    }
    longer, t := StoppedJobIsSettled(s0, longer, t);
  }

  lemma StoppedJobIsSettled(s0: State, actions: seq<Action>, s: State) returns (longer: seq<Action>, t: State)
    requires Run(s0, actions) == Some(s) && s.commander.MustConfirm? && !s.shared.alive
    ensures Run(s0, longer) == Some(t)
    ensures t.commander == Returned(Interrupted(false)) && t.runner == s.runner
    ensures t.interrupt == s.interrupt && t.echo == s.echo
    ensures t.history.markedAt == s.history.markedAt
  {
    hide Run;
    longer, t := Then(s0, actions, s, ByCommander(CheckStopped));
    longer, t := Then(s0, longer, t, ByCommander(AppendSettled));
    if s.interrupt != Pause {
      longer, t := Then(s0, longer, t, ByCommander(RetireResident));
    }
  }

  /** The commander marks the job and finds the text it waits for. */
  lemma PauseKeeps(s0: State, actions: seq<Action>, s: State) returns (longer: seq<Action>, t: State)
    requires Run(s0, actions) == Some(s) && s.interrupt == Pause
    requires s.commander.Requested? && s.shared.cancelLogged
    ensures Run(s0, longer) == Some(t)
    ensures t.commander == Returned(Interrupted(true)) && t.runner == s.runner
    ensures t.shared == s.shared.(log := t.shared.log) && t.history.killed == s.history.killed
  {
    hide Run;
    longer, t := Then(s0, actions, s, ByCommander(AwaitGrace(true)));
    longer, t := Then(s0, longer, t, ByCommander(CheckAlive));
    longer, t := Then(s0, longer, t, ByCommander(AppendSettled));
  }

  // ---- Refused cancels and kills ----

  /** Marked while the runner may still store its child, a refused cancel or
      kill may leave it running in the cache. */
  lemma RefusalMayLeaveALiveConnection(interrupt: Interrupt, at: RunnerAt) returns (actions: seq<Action>, t: State)
    requires interrupt != Pause && MayStillStore(at)
    ensures Run(Start(interrupt, false, false, false), actions) == Some(t)
    ensures t.interrupt == interrupt && !t.echo
    ensures t.commander == Returned(Refused) && t.history.markedAt == Some(at) && LiveCached(t)
  {
    hide Run;
    var s := Start(interrupt, false, false, false);
    actions, t := TurnReaches(interrupt, at);
    actions, t := Then(s, actions, t, ByCommander(ReadJob));
    actions, t := CommanderFindsAlive(s, actions, t);
    actions, t := CommanderIsRefused(s, actions, t);
    actions, t := RunnerStores(s, actions, t);
  }

  /** Whether a refused cancel or kill can leave a running child cached depends
      only on where the runner is when the marker is written: before its loop
      or once it has released the child it never can, anywhere else it can. */
  lemma RefusalIsSafeExactlyWhenMarkedSafely(interrupt: Interrupt, at: RunnerAt)
    requires interrupt != Pause
    ensures SafeToMark(at) <==>
            forall s: State | Reachable(s) && s.interrupt == interrupt
                              && s.commander == Returned(Refused) && s.history.markedAt == Some(at) ::
              !LiveCached(s)
  {
    hide Run, Reachable, LiveCached;
    if SafeToMark(at) {
      forall s: State | Reachable(s) && s.interrupt == interrupt
                        && s.commander == Returned(Refused) && s.history.markedAt == Some(at)
        ensures !LiveCached(s)
      {
        SafeMarkLeavesNoneCached(s);
      }
    } else {
      var actions, t := RefusalMayLeaveALiveConnection(interrupt, at);
      ReachedBy(t, actions);
    }
  }

  lemma ReachedBy(t: State, actions: seq<Action>)
    requires Run(Start(t.interrupt, t.echo, false, false), actions) == Some(t)
    ensures Reachable(t)
  {
    hide Run;
  }

  // ---- Pauses ----

  /** A pause may report its connection kept although the runner has killed the
      child: the turn failed after its cancel request was logged, whether or not
      the request could be sent. */
  lemma PauseMayReportADeadConnectionKept(sent: bool) returns (actions: seq<Action>)
    ensures match Run(Start(Pause, false, false, false), actions)
            case Some(t) => t.commander == Returned(Interrupted(true)) && t.history.killed && Dropped(t.runner)
            case None => false
  {
    hide Run;
    var s := Start(Pause, false, false, false);
    var t: State;
    actions, t := TurnReachesLoop(Pause, false);
    actions, t := Then(s, actions, t, ByCommander(ReadJob));
    actions, t := Then(s, actions, t, ByCommander(WriteMarker));
    actions, t := Then(s, actions, t, ByCommander(AppendRequested));
    if sent {
      actions, t := Then(s, actions, t, ByRunner(SendCancel));
      actions, t := Then(s, actions, t, ByRunner(FailTurn));
    } else {
      actions, t := Then(s, actions, t, ByRunner(FailCancel));
    }
    actions, t := PauseKeeps(s, actions, t);
  }

  /** The same when the agent cancels by itself, and its log holds the text the
      commander waits for. */
  lemma PauseMayMistakeAnotherCancel() returns (actions: seq<Action>)
    ensures match Run(Start(Pause, true, false, false), actions)
            case Some(t) =>
              && t.commander == Returned(Interrupted(true)) && t.history.killed
              && Dropped(t.runner) && !t.runner.final.Errored?
            case None => false
  {
    hide Run;
    var s := Start(Pause, true, false, false);
    var t: State;
    actions, t := TurnReachesLoop(Pause, true);
    actions, t := Then(s, actions, t, ByCommander(ReadJob));
    actions, t := Then(s, actions, t, ByRunner(EndLoop(Cancelled)));
    actions, t := Then(s, actions, t, ByRunner(FlushLog));
    actions, t := Then(s, actions, t, ByRunner(ReadPauseMarker));
    actions, t := Then(s, actions, t, ByRunner(StoreOrKill));
    actions, t := Then(s, actions, t, ByCommander(WriteMarker));
    actions, t := Then(s, actions, t, ByCommander(AppendRequested));
    actions, t := PauseKeeps(s, actions, t);
  }

  // ---- The status of the job ----

  /** The turn is over, nobody has marked it, and the monitor has looked; a
      commander read the job while it ran. */
  predicate OverUnmarked(s: State, status: Status) {
    && s.runner.final == EndedWith(status) && !s.shared.marker && Open(Latest(s.shared.log).status)
    && s.commander.HasRead? && s.commander.read.pid && Open(s.commander.read.status)
  }

  lemma TurnEndsItself(interrupt: Interrupt, status: Status, waiting: bool) returns (actions: seq<Action>, t: State)
    requires Reported(status)
    ensures Run(Start(interrupt, false, false, false), actions) == Some(t)
    ensures t.interrupt == interrupt && !t.echo && t.runner.at.MustDecide? && t.shared.alive
    ensures t.shared.cache.Empty? && OverUnmarked(t, status) && !t.runner.cancelSent && !t.runner.sawPause
    ensures t.commander.read.status == if waiting then WaitingApproval else Running
  {
    hide Run;
    var s := Start(interrupt, false, false, false);
    actions, t := TurnReachesLoop(interrupt, false);
    if waiting {
      actions, t := Then(s, actions, t, ByRunner(AskApproval(false)));
    }
    actions, t := Then(s, actions, t, ByCommander(ReadJob));
    actions, t := Then(s, actions, t, ByRunner(EndLoop(status)));
    actions, t := Then(s, actions, t, ByRunner(FlushLog));
    actions, t := Then(s, actions, t, ByRunner(ReadPauseMarker));
  }

  lemma MonitorMayLookFirst(interrupt: Interrupt, status: Status, waiting: bool)
    returns (actions: seq<Action>, t: State)
    requires Reported(status)
    ensures Run(Start(interrupt, false, false, false), actions) == Some(t)
    ensures t.interrupt == interrupt && !t.echo && t.runner.at.MustReadLog? && OverUnmarked(t, status)
    ensures t.commander.read.status == if waiting then WaitingApproval else Running
    ensures status != Cancelled ==> t.shared.alive
  {
    hide Run;
    var s := Start(interrupt, false, false, false);
    actions, t := TurnEndsItself(interrupt, status, waiting);
    actions, t := Then(s, actions, t, ByRunner(StoreOrKill));
    if status != Cancelled {
      actions, t := Then(s, actions, t, ByRunner(InsertResident));
    }
    actions, t := Then(s, actions, t, ByRunner(JudgeByMarker));
  }

  /** Both threads are done, the interrupt was confirmed, and the marker was
      written while the runner or its monitor was there. */
  predicate ConfirmedAndOver(t: State, at: RunnerAt) {
    && t.runner.at.Ended? && t.commander.Returned? && t.commander.outcome.Interrupted?
    && t.history.markedAt == Some(at)
  }

  /** The marker is written there, and the monitor goes by the turn itself. */
  lemma MarkerMayComeLate(interrupt: Interrupt, at: RunnerAt) returns (actions: seq<Action>, t: State)
    requires !SafeToConfirm(interrupt, at)
    ensures Run(Start(interrupt, false, false, false), actions) == Some(t)
    ensures t.interrupt == interrupt && !t.echo && t.history.markedAt == Some(at)
    ensures t.commander.Marked? && t.commander.read.pid
    ensures t.runner.at.MustComplete? && t.runner.at.verdict != JobStatus(interrupt)
  {
    hide Run;
    var s := Start(interrupt, false, false, false);
    if at.MustComplete? {
      actions, t := MonitorMayLookFirst(interrupt, at.verdict, false);
      actions, t := Then(s, actions, t, ByRunner(JudgeByLog));
      actions, t := Then(s, actions, t, ByCommander(WriteMarker));
    } else {
      actions, t := MonitorMayLookFirst(interrupt, Finished, false);
      actions, t := Then(s, actions, t, ByCommander(WriteMarker));
      actions, t := Then(s, actions, t, ByRunner(JudgeByLog));
    }
  }

  /** A monitor that has looked for the marker may record the end of the turn
      over a confirmed interrupt, wherever it then was and whatever the end. */
  lemma LateMarkerMayBeOverwritten(interrupt: Interrupt, at: RunnerAt) returns (actions: seq<Action>, t: State)
    requires !SafeToConfirm(interrupt, at)
    ensures Run(Start(interrupt, false, false, false), actions) == Some(t)
    ensures t.interrupt == interrupt && !t.echo
    ensures ConfirmedAndOver(t, at) && Latest(t.shared.log).status != JobStatus(interrupt)
  {
    hide Run;
    var s := Start(interrupt, false, false, false);
    actions, t := MarkerMayComeLate(interrupt, at);
    actions, t := CommanderConfirms(s, actions, t);
    actions, t := Then(s, actions, t, ByRunner(AppendCompleted));
  }

  /** Where the marker is written decides whether the status of a confirmed
      interrupt can be overwritten: it never can unless the monitor had looked
      for the marker and not yet recorded another end of the turn. */
  lemma ConfirmedStatusIsSafeExactlyWhenMarkedSafely(interrupt: Interrupt, at: RunnerAt)
    ensures SafeToConfirm(interrupt, at) <==>
            forall s: State | Reachable(s) && s.interrupt == interrupt && ConfirmedAndOver(s, at) ::
              Latest(s.shared.log).status == JobStatus(interrupt)
  {
    hide Run, Reachable, Latest;
    if SafeToConfirm(interrupt, at) {
      forall s: State | Reachable(s) && s.interrupt == interrupt && ConfirmedAndOver(s, at)
        ensures Latest(s.shared.log).status == JobStatus(interrupt)
      {
        SafeMarkSettlesJob(s);
      }
    } else {
      var actions, t := LateMarkerMayBeOverwritten(interrupt, at);
      ReachedBy(t, actions);
    }
  }

  /** The process could not be started, and the monitor is about to record it;
      the commander has read the job before all that. */
  lemma TurnMayFailToStart(interrupt: Interrupt) returns (actions: seq<Action>, t: State)
    ensures Run(Start(interrupt, false, false, false), actions) == Some(t)
    ensures t.interrupt == interrupt && t.runner.at == MustComplete(Failed) && !t.shared.alive
    ensures t.commander == HasRead(TurnRecord(Running, false, Starter)) && t.shared.cache.Empty?
  {
    hide Run;
    var s := Start(interrupt, false, false, false);
    RunNothing(s);
    actions, t := Then(s, [], s, ByCommander(ReadJob));
    actions, t := Then(s, actions, t, ByRunner(TakeResident(false)));
    actions, t := Then(s, actions, t, ByRunner(Spawn(false)));
    actions, t := UnmarkedFailureIsJudged(s, actions, t);
  }

  lemma UnmarkedFailureIsJudged(s0: State, actions: seq<Action>, s: State) returns (longer: seq<Action>, t: State)
    requires Run(s0, actions) == Some(s) && s.runner.at.MustJudge? && s.runner.final.Errored?
    requires !s.shared.marker && Open(Latest(s.shared.log).status)
    ensures Run(s0, longer) == Some(t)
    ensures t == s.(runner := s.runner.(at := MustComplete(Failed)))
  {
    hide Run;
    longer, t := Then(s0, actions, s, ByRunner(JudgeByMarker));
    longer, t := Then(s0, longer, t, ByRunner(JudgeByLog));
  }

  /** A commander that read the job before its process started, and marks it
      after the turn has failed, leaves it `running`. */
  lemma RefusalMayStrandTurn(interrupt: Interrupt) returns (actions: seq<Action>)
    ensures match Run(Start(interrupt, false, false, false), actions)
            case Some(t) =>
              && t.runner.at.Ended? && t.commander == Returned(Refused) && !t.shared.alive
              && Latest(t.shared.log).status == Running
            case None => false
  {
    hide Run;
    var s := Start(interrupt, false, false, false);
    var t: State;
    actions, t := TurnMayFailToStart(interrupt);
    actions, t := Then(s, actions, t, ByRunner(AppendCompleted));
    actions, t := Then(s, actions, t, ByCommander(WriteMarker));
    actions, t := Then(s, actions, t, ByCommander(AppendRequested));
    if interrupt != Pause {
      actions, t := Then(s, actions, t, ByCommander(RetireResident));
    }
  }

  lemma TurnMayEndFirst(interrupt: Interrupt) returns (actions: seq<Action>, t: State)
    ensures Run(Start(interrupt, false, false, false), actions) == Some(t)
    ensures t.interrupt == interrupt && t.runner.at.Ended? && t.shared.alive && t.commander.HasRead?
    ensures t.commander.read.pid && t.commander.read.status == WaitingApproval
  {
    hide Run;
    var s := Start(interrupt, false, false, false);
    actions, t := MonitorMayLookFirst(interrupt, Finished, true);
    actions, t := Then(s, actions, t, ByRunner(JudgeByLog));
    actions, t := Then(s, actions, t, ByRunner(AppendCompleted));
  }

  /** One that read it while it waited for an approval, and fails to terminate
      the idle child after the turn has ended, leaves it waiting. */
  lemma RefusalMayStrandWaitingTurn(interrupt: Interrupt) returns (actions: seq<Action>)
    ensures match Run(Start(interrupt, false, false, false), actions)
            case Some(t) =>
              && t.runner.at.Ended? && t.commander == Returned(Refused)
              && Latest(t.shared.log).status == WaitingApproval
            case None => false
  {
    hide Run;
    var s := Start(interrupt, false, false, false);
    var t: State;
    actions, t := TurnMayEndFirst(interrupt);
    actions, t := CommanderFindsAlive(s, actions, t);
    actions, t := Then(s, actions, t, ByCommander(Terminate(false)));
    actions, t := Then(s, actions, t, ByCommander(AppendFailure));
    if interrupt != Pause {
      actions, t := Then(s, actions, t, ByCommander(RetireResident));
    }
  }
}
