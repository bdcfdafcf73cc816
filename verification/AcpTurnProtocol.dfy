/** One turn of a typed ACP session: the runner and its monitor, one commander,
    the child process and the cache entry of the session, interleaved in any
    order. Other sessions and the cache bound are in `ResidentCache`. */
module AcpTurnProtocol {
  import opened Wrappers
  import opened Interrupts

  /** A log record, and whether it names a process. */
  datatype TurnRecord = TurnRecord(status: Status, pid: bool, writer: Writer)

  type Log = log: seq<TurnRecord> | |log| > 0 witness [TurnRecord(Running, false, Starter)]

  /** What the cache holds for the session: nothing, the connection of an
      earlier turn, or this turn's. */
  datatype Cache = Empty | Prior | Current

  /** How the prompt loop ended, as the agent reported it. */
  datatype Final = EndedWith(status: Status) | Errored

  datatype RunnerAt =
    | Starting
    | Spawning
    | Publishing                 // has a child, must publish its pid
    | AtLoop                     // about to enter the prompt loop
    | Prompting                  // in the prompt loop
    | MustFlush                  // loop over, log not yet written
    | MustReadMarker             // log written
    | MustDecide                 // store or kill
    | MustInsert                 // saw the child alive, about to cache it
    | MustJudge                  // runner returned; monitor looks for the marker
    | MustReadLog                // no marker: monitor looks at the job status
    | MustComplete(verdict: Status)
    | Ended

  datatype Outcome = AlreadyOver | Interrupted(kept: bool) | Refused

  datatype CommanderAt =
    | Idle
    | HasRead(read: TurnRecord)
    | Marked(read: TurnRecord)
    | Requested(read: TurnRecord)
    | Waited(read: TurnRecord, cooperative: bool)
    | SawAlive(read: TurnRecord)
    | MustConfirm(read: TurnRecord)
    | Confirmed(read: TurnRecord, kept: bool)
    | MustReport(read: TurnRecord)
    | MustRetire(outcome: Outcome)
    | Returned(outcome: Outcome)

  /** What the threads share: the job log, the interrupt marker, the turn log,
      the cache entry and the processes. */
  datatype Shared = Shared(
    log: Log,
    marker: bool,
    cancelLogged: bool,          // the turn log on disk contains "session/cancel"
    cache: Cache,
    priorAlive: bool,            // the child of the earlier connection
    alive: bool)                 // this turn's child

  datatype Runner = Runner(at: RunnerAt, cancelSent: bool, final: Final, sawPause: bool)

  /** What a refused commander had read, and where the runner was when it
      recorded the refusal. */
  datatype Refusal = Refusal(read: Status, at: RunnerAt)

  /** Remembered for the statements only: did either thread kill this turn's
      child, did it exit by itself, and where was the runner when the commander
      wrote the marker, recorded the interrupt, or recorded its refusal? */
  datatype History = History(
    killed: bool,
    exited: bool,
    markedAt: Option<RunnerAt>,
    settledAt: Option<RunnerAt>,
    refusal: Option<Refusal>)

  datatype State = State(
    interrupt: Interrupt,
    echo: bool,                  // does anything else in the turn log contain "session/cancel":
                                 // output of the agent, the prompt, another request?
    shared: Shared,
    runner: Runner,
    commander: CommanderAt,
    history: History)

  function Start(interrupt: Interrupt, echo: bool, cached: bool, priorAlive: bool): State {
    State(interrupt, echo,
          Shared([TurnRecord(Running, false, Starter)], false, false,
                 if cached then Prior else Empty, cached && priorAlive, false),
          Runner(Starting, false, Errored, false),
          Idle,
          NO_HISTORY)
  }

  const NO_HISTORY := History(false, false, None, None, None)

  function Latest(log: Log): TurnRecord {
    log[|log| - 1]
  }

  function Append(shared: Shared, status: Status, pid: bool, writer: Writer): (longer: Shared)
    ensures |longer.log| == |shared.log| + 1 && longer.log[..|shared.log|] == shared.log
    ensures Latest(longer.log) == TurnRecord(status, pid, writer)
    ensures longer == shared.(log := longer.log)
  {
    shared.(log := shared.log + [TurnRecord(status, pid, writer)])
  }

  function KillChild(s: State): State {
    s.(shared := s.shared.(alive := false), history := s.history.(killed := s.history.killed || s.shared.alive))
  }

  /** Stops whatever the cache holds for the session and drops it. */
  function Retire(s: State): (t: State)
    ensures t.shared.log == s.shared.log && t.shared.marker == s.shared.marker && t.shared.cache.Empty?
    ensures t.commander == s.commander && t.runner == s.runner && t.interrupt == s.interrupt && t.echo == s.echo
    ensures t.shared.alive ==> s.shared.alive
    ensures t.history == s.history.(killed := t.history.killed)
  {
    match s.shared.cache
    case Empty => s
    case Prior => s.(shared := s.shared.(cache := Empty, priorAlive := false))
    case Current => var t := KillChild(s); t.(shared := t.shared.(cache := Empty))
  }

  /** The status an interrupt read back by the monitor settles the job at. */
  function InterruptedStatus(status: Status): Option<Status> {
    match InterruptOf(status) case Some(interrupt) => Some(JobStatus(interrupt)) case None => None
  }

  /** The statuses a turn ends with when the agent reports its end. */
  predicate Reported(status: Status) {
    status == Finished || status == Cancelled || status == Failed || status == Observed
  }

  /** The status of a turn nobody interrupted. */
  function EvidenceStatus(final: Final): Status {
    if final.Errored? then Failed else final.status
  }

  /** Cancel and kill drop the cached connection before they return. */
  function Finish(interrupt: Interrupt, outcome: Outcome): CommanderAt {
    if interrupt == Pause then Returned(outcome) else MustRetire(outcome)
  }

  /** The command fails; what it read and where the runner is are remembered. */
  function Refuse(s: State, read: Status): State {
    s.(commander := Finish(s.interrupt, Refused),
       history := s.history.(refusal := Some(Refusal(read, s.runner.at))))
  }

  datatype RunnerAction =
    | TakeResident(fits: bool)
    | Spawn(ok: bool)
    | PublishPid
    | EnterLoop
    | SendCancel
    | AskApproval(answered: bool)   // the job waits for an approval, or goes on after it
    | FailTurn
    | FailCancel                 // the cancel request is logged, then cannot be sent
    | EndLoop(status: Status)
    | FlushLog
    | ReadPauseMarker
    | StoreOrKill
    | InsertResident
    // the monitor, once the runner has returned
    | JudgeByMarker
    | JudgeByLog
    | AppendCompleted

  datatype CommanderAction =
    | ReadJob
    | WriteMarker
    | AppendRequested
    | AwaitGrace(cooperative: bool)
    | CheckAlive
    | Terminate(confirmed: bool)
    | CheckStopped
    | AppendFailure
    | AppendSettled
    | RetireResident

  datatype Action =
    | ChildExits
    | PriorExits
    | ByRunner(r: RunnerAction)
    | ByCommander(c: CommanderAction)

  /** The monitor has a pid to report once the runner published one. */
  predicate Published(log: seq<TurnRecord>) {
    exists i | 0 <= i < |log| :: log[i].writer == Monitor
  }

  function Goto(s: State, at: RunnerAt): State {
    s.(runner := s.runner.(at := at))
  }

  function RunnerStep(s: State, a: RunnerAction): Option<State> {
    var at, shared := s.runner.at, s.shared;
    match a
    case TakeResident(fits) =>
      if !at.Starting? then None
      else if shared.cache.Prior? && shared.priorAlive && fits then
        Some(Goto(s, Publishing).(shared := shared.(cache := Empty, priorAlive := false, alive := true)))
      else Some(Goto(Retire(s), Spawning))
    case Spawn(ok) =>
      if !at.Spawning? then None
      else if ok then Some(Goto(s, Publishing).(shared := shared.(alive := true)))
      else Some(Goto(s, MustJudge))
    case PublishPid =>
      if at.Publishing? then Some(Goto(s, AtLoop).(shared := Append(shared, Running, true, Monitor))) else None
    case EnterLoop =>
      if at.AtLoop? then Some(s.(runner := s.runner.(cancelSent := shared.marker, at := Prompting))) else None
    case SendCancel =>
      if at.Prompting? && shared.marker && !s.runner.cancelSent then Some(s.(runner := s.runner.(cancelSent := true)))
      else None
    case AskApproval(answered) =>
      if at.Prompting? then
        var status := if answered then Running else WaitingApproval;
        Some(s.(shared := Append(shared, status, Latest(shared.log).pid, Approver)))
      else None
    case FailTurn =>
      if at.AtLoop? || at.Prompting? then
        var t := KillChild(s);
        Some(Goto(t, MustJudge).(shared := t.shared.(cancelLogged := s.runner.cancelSent || s.echo)))
      else None
    case FailCancel =>
      if (at.AtLoop? || at.Prompting?) && shared.marker && !s.runner.cancelSent then
        var t := KillChild(s);
        Some(Goto(t, MustJudge).(shared := t.shared.(cancelLogged := true)))
      else None
    case EndLoop(status) =>
      if at.Prompting? && Reported(status) then
        Some(s.(runner := s.runner.(final := EndedWith(status), at := MustFlush)))
      else None
    case FlushLog =>
      if at.MustFlush? then Some(Goto(s, MustReadMarker).(
                   shared := shared.(cancelLogged := s.runner.cancelSent || s.echo)))
      else None
    case ReadPauseMarker =>
      if at.MustReadMarker? then
        Some(s.(runner := s.runner.(sawPause := shared.marker && s.interrupt == Pause, at := MustDecide)))
      else None
    case StoreOrKill =>
      if !at.MustDecide? then None
      else if s.runner.sawPause || (!s.runner.cancelSent && s.runner.final != EndedWith(Cancelled)) then
        Some(Goto(s, if shared.alive then MustInsert else MustJudge))
      else Some(Goto(KillChild(s), MustJudge))
    case InsertResident =>
      if at.MustInsert? then Some(Goto(s, MustJudge).(shared := shared.(cache := Current))) else None
    case JudgeByMarker =>
      if at.MustJudge? then
        Some(Goto(s, if shared.marker then MustComplete(JobStatus(s.interrupt)) else MustReadLog))
      else None
    case JudgeByLog =>
      if at.MustReadLog? then
        Some(Goto(s, MustComplete(InterruptedStatus(Latest(shared.log).status).GetOr(EvidenceStatus(s.runner.final)))))
      else None
    case AppendCompleted =>
      if at.MustComplete? then
        Some(Goto(s, Ended).(shared := Append(shared, at.verdict, Published(shared.log), Monitor)))
      else None
  }

  function CommanderStep(s: State, a: CommanderAction): Option<State> {
    var c, shared := s.commander, s.shared;
    match a
    case ReadJob =>
      if !c.Idle? then None
      else if AlreadySettled(Latest(shared.log).status) then Some(s.(commander := Finish(s.interrupt, AlreadyOver)))
      else Some(s.(commander := HasRead(Latest(shared.log))))
    case WriteMarker =>
      if c.HasRead? then
        Some(s.(shared := shared.(marker := true),
                history := s.history.(markedAt := Some(s.runner.at)),
                commander := Marked(c.read)))
      else None
    case AppendRequested =>
      if c.Marked? then
        var t := s.(shared := Append(shared, c.read.status, c.read.pid, Commander));
        Some(if c.read.pid then t.(commander := Requested(c.read)) else Refuse(t, c.read.status))
      else None
    case AwaitGrace(cooperative) =>
      if c.Requested? && (cooperative ==> !s.interrupt.Kill? && shared.cancelLogged) then
        Some(s.(commander := Waited(c.read, cooperative)))
      else None
    case CheckAlive =>
      if !c.Waited? then None
      else if s.interrupt == Pause && c.cooperative then Some(s.(commander := Confirmed(c.read, true)))
      else Some(s.(commander := if shared.alive then SawAlive(c.read) else MustConfirm(c.read)))
    case Terminate(confirmed) =>
      if !c.SawAlive? then None
      else if confirmed then Some(KillChild(s).(commander := MustConfirm(c.read)))
      else Some(s.(commander := MustReport(c.read)))
    case CheckStopped =>
      if c.MustConfirm? then
        Some(s.(commander := if shared.alive then MustReport(c.read) else Confirmed(c.read, false)))
      else None
    case AppendFailure =>
      if c.MustReport? then
        Some(Refuse(s.(shared := Append(shared, c.read.status, c.read.pid, Commander)), c.read.status))
      else None
    case AppendSettled =>
      if c.Confirmed? then
        Some(s.(shared := Append(shared, JobStatus(s.interrupt), c.read.pid, Commander),
                history := s.history.(settledAt := Some(s.runner.at)),
                commander := Finish(s.interrupt, Interrupted(c.kept))))
      else None
    case RetireResident =>
      if c.MustRetire? then Some(Retire(s).(commander := Returned(c.outcome))) else None
  }

  /** The state after a step, if the step is possible. */
  function Step(s: State, a: Action): Option<State> {
    match a
    case ChildExits =>
      if s.shared.alive then
        Some(s.(shared := s.shared.(alive := false), history := s.history.(exited := true)))
      else None
    case PriorExits => if s.shared.priorAlive then Some(s.(shared := s.shared.(priorAlive := false))) else None
    case ByRunner(r) => RunnerStep(s, r)
    case ByCommander(c) => CommanderStep(s, c)
  }

  function Run(s: State, actions: seq<Action>): Option<State>
    decreases actions
  {
    if actions == [] then Some(s)
    else
      match Step(s, actions[0])
      case None => None
      case Some(next) => Run(next, actions[1..])
  }

  // ---- Phases ----

  predicate BeforePublish(r: RunnerAt) {
    r.Starting? || r.Spawning? || r.Publishing?
  }

  predicate BeforeLoop(r: RunnerAt) {
    BeforePublish(r) || r.AtLoop?
  }

  /** The runner has given up the child: stored it, killed it, or never had one. */
  predicate Released(r: RunnerAt) {
    r.MustJudge? || r.MustReadLog? || r.MustComplete? || r.Ended?
  }

  predicate Decided(r: RunnerAt) {
    r.MustDecide? || r.MustInsert? || Released(r)
  }

  predicate Flushed(r: RunnerAt) {
    r.MustReadMarker? || Decided(r)
  }

  predicate BeforeVerdict(r: RunnerAt) {
    !r.MustReadLog? && !r.MustComplete? && !r.Ended?
  }

  predicate MarkedBeforeLoop(history: History) {
    history.markedAt.Some? && BeforeLoop(history.markedAt.value)
  }

  predicate MarkedBeforeVerdict(history: History) {
    history.markedAt.Some? && BeforeVerdict(history.markedAt.value)
  }

  predicate MarkedOnceReleased(history: History) {
    history.markedAt.Some? && Released(history.markedAt.value)
  }

  function OutcomeOf(c: CommanderAt): Option<Outcome> {
    match c
    case MustRetire(outcome) => Some(outcome)
    case Returned(outcome) => Some(outcome)
    case _ => None
  }

  // ---- What every reachable state satisfies ----

  /** Where the connection can be: an earlier one only before the runner looks,
      this turn's only after the runner has let go of it. */
  ghost predicate CacheInv(s: State) {
    var at, shared := s.runner.at, s.shared;
    && (at.Starting? ==> !shared.cache.Current? && !shared.alive)
    && (at.Spawning? ==> !shared.alive)
    && (!at.Starting? ==> !shared.cache.Prior?)
    && (shared.priorAlive ==> shared.cache.Prior?)
    && (shared.cache.Current? ==> Released(at))
    && (shared.alive && Released(at) ==> shared.cache.Current?)
  }

  // What a log contains.

  predicate NamesPid(log: Log) {
    exists i | 0 <= i < |log| :: log[i].pid
  }

  /** Has the monitor recorded how the turn ended? */
  predicate Completed(log: Log) {
    exists i | 0 <= i < |log| :: log[i].writer == Monitor && log[i].status != Running
  }

  predicate CompletedOnlyAs(log: Log, status: Status) {
    forall i | 0 <= i < |log| && log[i].writer == Monitor && log[i].status != Running :: log[i].status == status
  }

  predicate CommanderWrote(log: Log) {
    exists i | 0 <= i < |log| :: log[i].writer == Commander
  }

  /** Has the commander recorded a status that ends the job? */
  predicate CommanderSettled(log: Log) {
    exists i | 0 <= i < |log| :: log[i].writer == Commander && AlreadySettled(log[i].status)
  }

  predicate ApproverKeepsOpen(log: Log) {
    forall i | 0 <= i < |log| && log[i].writer == Approver :: Open(log[i].status)
  }

  predicate StarterRuns(log: Log) {
    forall i | 0 <= i < |log| && log[i].writer == Starter :: log[i].status == Running
  }

  /** A step adds at most one record. */
  lemma LogGrows(log: Log, longer: Log, status: Status)
    requires longer == log || (|longer| == |log| + 1 && longer[..|log|] == log)
    ensures var last, same := Latest(longer), longer == log;
            && (NamesPid(longer) <==> NamesPid(log) || (!same && last.pid))
            && (Completed(longer) <==> Completed(log) || (!same && last.writer == Monitor && last.status != Running))
            && (CompletedOnlyAs(longer, status) <==>
                CompletedOnlyAs(log, status)
                && (!same && last.writer == Monitor && last.status != Running ==> last.status == status))
            && (CommanderWrote(longer) <==> CommanderWrote(log) || (!same && last.writer == Commander))
            && (CommanderSettled(longer) <==>
                CommanderSettled(log) || (!same && last.writer == Commander && AlreadySettled(last.status)))
            && (StarterRuns(longer) <==>
                StarterRuns(log) && (!same && last.writer == Starter ==> last.status == Running))
            && (ApproverKeepsOpen(longer) <==>
                ApproverKeepsOpen(log) && (!same && last.writer == Approver ==> Open(last.status)))
    ensures !Completed(log) ==> CompletedOnlyAs(log, status)
  {
    assert forall i | 0 <= i < |log| :: longer[i] == log[i];
  }

  /** What the last record says of the whole log. */
  lemma LatestIsIn(log: Log)
    ensures Latest(log).pid ==> NamesPid(log)
    ensures Latest(log).writer == Monitor && Latest(log).status != Running ==> Completed(log)
    ensures Latest(log).writer == Commander ==> CommanderWrote(log)
    ensures StarterRuns(log) && Latest(log).writer == Starter ==> Latest(log).status == Running
    ensures ApproverKeepsOpen(log) && Latest(log).writer == Approver ==> Open(Latest(log).status)
  {
    assert log[|log| - 1] == Latest(log);
  }

  /** What the records tell about the threads. */
  ghost predicate LogInv(s: State) {
    var at, c, log := s.runner.at, s.commander, s.shared.log;
    && (NamesPid(log) ==> !BeforePublish(at))
    && (Completed(log) <==> at.Ended?)
    && (CommanderWrote(log) ==> !c.Idle? && !c.HasRead? && !c.Marked? && OutcomeOf(c) != Some(AlreadyOver))
    && StarterRuns(log) && ApproverKeepsOpen(log)
  }

  function ReadOf(c: CommanderAt): Option<TurnRecord> {
    match c
    case Idle => None
    case MustRetire(_) => None
    case Returned(_) => None
    case _ => Some(c.read)
  }

  /** What the commander may have read, and when it may say it is done. */
  ghost predicate CommanderInv(s: State) {
    var at, c, read, outcome := s.runner.at, s.commander, ReadOf(s.commander), OutcomeOf(s.commander);
    && (s.shared.marker <==> !c.Idle? && !c.HasRead? && outcome != Some(AlreadyOver))
    && (read.Some? ==> !AlreadySettled(read.value.status))
    && (read.Some? && read.value.pid ==> !BeforePublish(at))
    && (read.Some? && !Open(read.value.status) ==> at.Ended?)
    && (read.Some? && !c.HasRead? && !c.Marked? ==> read.value.pid)
    && (outcome == Some(AlreadyOver) ==> at.Ended?)
    && (outcome.Some? && outcome.value.Interrupted? ==> !BeforePublish(at))
    && (c.MustRetire? ==> s.interrupt != Pause)
    && (c == Returned(AlreadyOver) && s.interrupt != Pause ==> s.shared.cache.Empty?)
  }

  /** A commander that goes on without keeping the child has seen it stopped. */
  ghost predicate StoppedInv(s: State) {
    var c := s.commander;
    && (c.Confirmed? && !c.kept ==> !s.shared.alive && !BeforePublish(s.runner.at))
    && (c.Confirmed? && c.kept ==> s.interrupt == Pause && s.shared.cancelLogged)
    && (c.Waited? && c.cooperative ==> s.shared.cancelLogged)
    && (OutcomeOf(c) == Some(Interrupted(false)) ==> !s.shared.alive && !BeforePublish(s.runner.at))
    && (OutcomeOf(c) == Some(Interrupted(true)) ==> s.interrupt == Pause && s.shared.cancelLogged)
  }

  /** How the loop, the cancel request and the marker hang together. */
  ghost predicate LoopInv(s: State) {
    var r, at := s.runner, s.runner.at;
    && (r.cancelSent ==> s.shared.marker && !BeforeLoop(at))
    && (s.shared.cancelLogged ==> Flushed(at) && (r.cancelSent || s.echo || r.final.Errored?))
    && (BeforeLoop(at) || at.Prompting? ==> r.final == Errored)
    && (at.MustFlush? || at.MustReadMarker? || at.MustDecide? || at.MustInsert? ==> !r.final.Errored?)
    && (r.sawPause ==> s.interrupt == Pause && s.shared.marker && Decided(at) && !r.final.Errored?)
    && (Decided(at) && r.cancelSent && s.interrupt == Pause && !r.final.Errored? ==> r.sawPause)
    && (at.MustInsert? ==> r.sawPause || (!r.cancelSent && r.final != EndedWith(Cancelled)))
    && (r.final.EndedWith? ==> Reported(r.final.status))
  }

  /** A cancel or kill marked before the loop keeps the child out of the cache. */
  ghost predicate EarlyMarkInv(s: State) {
    var at := s.runner.at;
    MarkedBeforeLoop(s.history) ==>
      && s.shared.marker
      && (BeforeLoop(at) || s.runner.cancelSent || Released(at))
      && (s.interrupt != Pause ==> !at.MustInsert? && (Released(at) ==> !s.shared.alive))
  }

  /** Is the commander on the path of a pause that keeps the child? */
  predicate KeepingPause(c: CommanderAt) {
    match c
    case Idle => true
    case HasRead(_) => true
    case Marked(_) => true
    case Requested(_) => true
    case Waited(_, cooperative) => cooperative
    case Confirmed(_, kept) => kept
    case MustRetire(outcome) => outcome == Interrupted(true)
    case Returned(outcome) => outcome == Interrupted(true)
    case _ => false
  }

  /** On that path only the runner can have killed the child. */
  ghost predicate KilledInv(s: State) {
    var r := s.runner;
    s.history.killed && s.interrupt == Pause && KeepingPause(s.commander) ==>
      && Released(r.at)
      && (r.final.Errored? || (!r.sawPause && r.final == EndedWith(Cancelled)))
  }

  /** A marker the monitor could still see decides the status of the turn. */
  ghost predicate VerdictInv(s: State) {
    var at, log := s.runner.at, s.shared.log;
    && (MarkedBeforeVerdict(s.history) ==> s.shared.marker && !at.MustReadLog?)
    && (at.MustComplete? ==> !Open(at.verdict))
    && (MarkedBeforeVerdict(s.history) && at.MustComplete? ==> at.verdict == JobStatus(s.interrupt))
    && (MarkedBeforeVerdict(s.history) ==> CompletedOnlyAs(log, JobStatus(s.interrupt)))
  }

  /** What the last record says once its writer is done. */
  ghost predicate LatestInv(s: State) {
    var last, outcome := Latest(s.shared.log), OutcomeOf(s.commander);
    && (s.runner.at.Ended? ==>
          !last.writer.Starter? && !last.writer.Approver? && (last.writer.Monitor? ==> !Open(last.status)))
    && (last.writer == Commander && outcome.Some? && outcome.value.Interrupted?
        ==> last.status == JobStatus(s.interrupt))
  }

  /** A commander record that ends the job follows a stopped child. */
  ghost predicate SettledInv(s: State) {
    CommanderSettled(s.shared.log) ==> !s.shared.alive && !BeforePublish(s.runner.at)
  }

  /** Did the runner not store the child: did the turn fail, or end cancelled
      without a pause in sight? */
  predicate Dropped(r: Runner) {
    r.final.Errored? || (!r.sawPause && r.final == EndedWith(Cancelled))
  }

  /** Only a turn that was not dropped is cached; and its child, once there,
      runs until somebody ends it. */
  ghost predicate StoredInv(s: State) {
    var at, r, h := s.runner.at, s.runner, s.history;
    && (s.shared.cache.Current? ==> !Dropped(r))
    && (s.shared.alive ==> !h.exited)
    && (at.Starting? || at.Spawning? ==> !h.exited)
    && (at.Publishing? || at.AtLoop? || at.Prompting? || r.final.EndedWith? ==>
          s.shared.alive || h.killed || h.exited)
  }

  /** A cancel or kill that has returned left no earlier connection, and none of
      this turn if it was marked once the runner was done with the child. */
  ghost predicate RetiredInv(s: State) {
    && (s.shared.marker <==> s.history.markedAt.Some?)
    && (MarkedOnceReleased(s.history) ==> Released(s.runner.at))
    && (s.commander.Returned? && s.interrupt != Pause ==>
          && !s.shared.cache.Prior?
          && (MarkedOnceReleased(s.history) ==> s.shared.cache.Empty?))
  }

  /** A marker written after the monitor looked finds it with the verdict of the
      turn itself, or done. */
  ghost predicate LateMarkInv(s: State) {
    var at, h := s.runner.at, s.history;
    && (at.MustComplete? && !s.shared.marker ==> Reported(at.verdict))
    && (h.markedAt.Some? ==>
          match h.markedAt.value
          case MustComplete(verdict) =>
            && Reported(verdict) && (at == MustComplete(verdict) || at.Ended?)
            && (h.settledAt.Some? ==> h.settledAt.value == MustComplete(verdict) || h.settledAt.value.Ended?)
          case Ended => at.Ended? && (h.settledAt.Some? ==> h.settledAt.value.Ended?)
          case _ => true)
  }

  /** What follows a refusal: nothing if the runner was done, else the record of
      the monitor. */
  ghost predicate RefusalInv(s: State) {
    var at, refusal, last := s.runner.at, s.history.refusal, Latest(s.shared.log);
    && (refusal.Some? <==> OutcomeOf(s.commander) == Some(Refused))
    && (refusal.Some? && refusal.value.at.Ended? ==>
          at.Ended? && last.writer == Commander && last.status == refusal.value.read)
    && (refusal.Some? && !refusal.value.at.Ended? && at.Ended? ==> last.writer == Monitor)
  }

  /** What follows a confirmed interrupt: a monitor that had its verdict records
      it, any other finds the marker or the commander's record. */
  ghost predicate ConfirmedInv(s: State) {
    var at, settledAt, last, outcome :=
      s.runner.at, s.history.settledAt, Latest(s.shared.log), OutcomeOf(s.commander);
    && (settledAt.Some? <==> outcome.Some? && outcome.value.Interrupted?)
    && (settledAt.Some? ==>
          match settledAt.value
          case Ended => at.Ended? && last.writer == Commander
          case MustComplete(verdict) =>
            at == MustComplete(verdict) || (at.Ended? && last.writer == Monitor && last.status == verdict)
          case _ =>
            && (at.MustReadLog? ==> last.status == JobStatus(s.interrupt))
            && (at.MustComplete? ==> at.verdict == JobStatus(s.interrupt))
            && (at.Ended? ==> last.status == JobStatus(s.interrupt)))
  }

  ghost predicate Inv(s: State) {
    && CacheInv(s) && LogInv(s) && CommanderInv(s) && StoppedInv(s) && LoopInv(s) && EarlyMarkInv(s)
    && KilledInv(s) && VerdictInv(s) && LatestInv(s) && SettledInv(s)
    && StoredInv(s) && RetiredInv(s) && RefusalInv(s) && ConfirmedInv(s) && LateMarkInv(s)
  }

  // ---- Each runner step keeps each part ----

  lemma RunnerKeepsCacheInv(s: State, a: RunnerAction)
    requires CacheInv(s) && RunnerStep(s, a).Some?
    ensures CacheInv(RunnerStep(s, a).value)
  {
    hide Append, Latest, NamesPid, Completed, CompletedOnlyAs, CommanderWrote, CommanderSettled, StarterRuns,
         ApproverKeepsOpen, Published;
  }

  /** Three actions of the runner write to the log. */
  predicate RunnerWrites(a: RunnerAction) {
    a.PublishPid? || a.AskApproval? || a.AppendCompleted?
  }

  lemma RunnerWritesNothing(s: State, a: RunnerAction)
    requires RunnerStep(s, a).Some? && !RunnerWrites(a)
    ensures var t := RunnerStep(s, a).value;
            && t.shared.log == s.shared.log && (t.runner.at.Ended? <==> s.runner.at.Ended?)
            && (BeforePublish(t.runner.at) ==> BeforePublish(s.runner.at))
  {
    hide Append, Latest, Published, InterruptedStatus, EvidenceStatus;
  }

  lemma RunnerWritesOne(s: State, a: RunnerAction)
    requires RunnerStep(s, a).Some? && RunnerWrites(a)
    ensures var t := RunnerStep(s, a).value;
            var log, longer := s.shared.log, t.shared.log;
            && |longer| == |log| + 1 && longer[..|log|] == log && !BeforePublish(t.runner.at)
            && match Latest(longer).writer
               case Approver => Open(Latest(longer).status) && !t.runner.at.Ended? && !s.runner.at.Ended?
               case Monitor =>
                 if s.runner.at.MustComplete? then Latest(longer).status == s.runner.at.verdict && t.runner.at.Ended?
                 else Latest(longer).status == Running && !t.runner.at.Ended? && !s.runner.at.Ended?
               case _ => false
  {
    hide Append, Latest, Published, Retire;
  }

  lemma RunnerLeaves(s: State, a: RunnerAction)
    requires RunnerStep(s, a).Some?
    ensures var t := RunnerStep(s, a).value;
            && t.history.markedAt == s.history.markedAt && t.commander == s.commander && t.interrupt == s.interrupt
            && (t.shared.alive ==> s.shared.alive || BeforePublish(s.runner.at))
  {
    hide Append, Latest, Published, InterruptedStatus, EvidenceStatus;
  }

  /** What a runner step adds to the log. */
  lemma RunnerAppends(s: State, a: RunnerAction)
    requires RunnerStep(s, a).Some?
    ensures var t := RunnerStep(s, a).value;
            var at, next, log, longer := s.runner.at, t.runner.at, s.shared.log, t.shared.log;
            && (longer == log || (|longer| == |log| + 1 && longer[..|log|] == log))
            && (BeforePublish(next) ==> BeforePublish(at) && longer == log)
            && (longer == log ==> (next.Ended? <==> at.Ended?))
            && (longer != log ==>
                  match Latest(longer).writer
                  case Approver => Open(Latest(longer).status) && !next.Ended? && !at.Ended?
                  case Monitor =>
                    if at.MustComplete? then Latest(longer).status == at.verdict && next.Ended?
                    else Latest(longer).status == Running && !next.Ended? && !at.Ended?
                  case _ => false)
  {
    hide RunnerStep, Latest;
    if RunnerWrites(a) {
      RunnerWritesOne(s, a);
    } else {
      RunnerWritesNothing(s, a);
    }
  }

  lemma RunnerKeepsLogInv(s: State, a: RunnerAction)
    requires LogInv(s) && VerdictInv(s) && RunnerStep(s, a).Some?
    ensures LogInv(RunnerStep(s, a).value)
  {
    hide RunnerStep, Latest, NamesPid, Completed, CompletedOnlyAs, CommanderWrote, CommanderSettled, StarterRuns,
         ApproverKeepsOpen;
    RunnerAppends(s, a);
    RunnerLeaves(s, a);
    LogGrows(s.shared.log, RunnerStep(s, a).value.shared.log, JobStatus(s.interrupt));
  }

  lemma RunnerKeepsCommanderInv(s: State, a: RunnerAction)
    requires CommanderInv(s) && RunnerStep(s, a).Some?
    ensures CommanderInv(RunnerStep(s, a).value)
  {
    hide Append, Latest, NamesPid, Completed, CompletedOnlyAs, CommanderWrote, CommanderSettled, StarterRuns,
         ApproverKeepsOpen, Published;
  }

  lemma RunnerKeepsStoppedInv(s: State, a: RunnerAction)
    requires StoppedInv(s) && LoopInv(s) && RunnerStep(s, a).Some?
    ensures StoppedInv(RunnerStep(s, a).value)
  {
    hide Append, Latest, NamesPid, Completed, CompletedOnlyAs, CommanderWrote, CommanderSettled, StarterRuns,
         ApproverKeepsOpen, Published;
  }

  lemma RunnerKeepsLoopInv(s: State, a: RunnerAction)
    requires LoopInv(s) && RunnerStep(s, a).Some?
    ensures LoopInv(RunnerStep(s, a).value)
  {
    hide Append, Latest, NamesPid, Completed, CompletedOnlyAs, CommanderWrote, CommanderSettled, StarterRuns,
         ApproverKeepsOpen, Published;
  }

  lemma RunnerKeepsEarlyMarkInv(s: State, a: RunnerAction)
    requires EarlyMarkInv(s) && CacheInv(s) && LoopInv(s) && RunnerStep(s, a).Some?
    ensures EarlyMarkInv(RunnerStep(s, a).value)
  {
    hide Append, Latest, NamesPid, Completed, CompletedOnlyAs, CommanderWrote, CommanderSettled, StarterRuns,
         ApproverKeepsOpen, Published;
  }

  lemma RunnerKeepsKilledInv(s: State, a: RunnerAction)
    requires KilledInv(s) && LoopInv(s) && CacheInv(s) && RunnerStep(s, a).Some?
    ensures KilledInv(RunnerStep(s, a).value)
  {
    hide Append, Latest, NamesPid, Completed, CompletedOnlyAs, CommanderWrote, CommanderSettled, StarterRuns,
         ApproverKeepsOpen, Published;
  }

  lemma RunnerKeepsVerdict(s: State, a: RunnerAction)
    requires VerdictInv(s) && LoopInv(s) && RunnerStep(s, a).Some?
    ensures var t := RunnerStep(s, a).value;
            && (MarkedBeforeVerdict(t.history) ==> t.shared.marker && !t.runner.at.MustReadLog?)
            && (t.runner.at.MustComplete? ==> !Open(t.runner.at.verdict))
            && (MarkedBeforeVerdict(t.history) && t.runner.at.MustComplete? ==>
                  t.runner.at.verdict == JobStatus(s.interrupt))
  {
    hide Retire, Append, Latest, Published, CompletedOnlyAs;
  }

  lemma RunnerKeepsVerdictInv(s: State, a: RunnerAction)
    requires VerdictInv(s) && LoopInv(s) && RunnerStep(s, a).Some?
    ensures VerdictInv(RunnerStep(s, a).value)
  {
    hide RunnerStep, Latest, NamesPid, Completed, CompletedOnlyAs, CommanderWrote, CommanderSettled, StarterRuns,
         ApproverKeepsOpen, LoopInv;
    RunnerKeepsVerdict(s, a);
    RunnerAppends(s, a);
    RunnerLeaves(s, a);
    LogGrows(s.shared.log, RunnerStep(s, a).value.shared.log, JobStatus(s.interrupt));
  }

  lemma RunnerKeepsLatestInv(s: State, a: RunnerAction)
    requires LatestInv(s) && RunnerStep(s, a).Some?
    requires s.runner.at.MustComplete? ==> !Open(s.runner.at.verdict)
    ensures LatestInv(RunnerStep(s, a).value)
  {
    hide Retire, InterruptedStatus, EvidenceStatus, Append, Latest, NamesPid, Completed, CompletedOnlyAs,
         CommanderWrote, CommanderSettled, StarterRuns,
         ApproverKeepsOpen, Published;
  }

  lemma RunnerKeepsSettledInv(s: State, a: RunnerAction)
    requires SettledInv(s) && StoppedInv(s) && RunnerStep(s, a).Some?
    ensures SettledInv(RunnerStep(s, a).value)
  {
    hide RunnerStep, Latest, NamesPid, Completed, CompletedOnlyAs, CommanderWrote, CommanderSettled, StarterRuns,
         ApproverKeepsOpen, StoppedInv;
    RunnerAppends(s, a);
    RunnerLeaves(s, a);
    LogGrows(s.shared.log, RunnerStep(s, a).value.shared.log, JobStatus(s.interrupt));
  }

  lemma RunnerKeepsStoredInv(s: State, a: RunnerAction)
    requires StoredInv(s) && LoopInv(s) && CacheInv(s) && RunnerStep(s, a).Some?
    ensures StoredInv(RunnerStep(s, a).value)
  {
    hide Append, Latest, NamesPid, Completed, CompletedOnlyAs, CommanderWrote, CommanderSettled, StarterRuns,
         ApproverKeepsOpen, Published;
  }

  lemma RunnerKeepsRetiredInv(s: State, a: RunnerAction)
    requires RetiredInv(s) && CacheInv(s) && RunnerStep(s, a).Some?
    ensures RetiredInv(RunnerStep(s, a).value)
  {
    hide Append, Latest, NamesPid, Completed, CompletedOnlyAs, CommanderWrote, CommanderSettled, StarterRuns,
         ApproverKeepsOpen, Published;
  }

  lemma RunnerKeepsRefusalInv(s: State, a: RunnerAction)
    requires RefusalInv(s) && CommanderInv(s) && LogInv(s) && RunnerStep(s, a).Some?
    ensures RefusalInv(RunnerStep(s, a).value)
  {
    hide Append, Latest, NamesPid, Completed, CompletedOnlyAs, CommanderWrote, CommanderSettled, StarterRuns,
         ApproverKeepsOpen, Published;
  }

  lemma RunnerKeepsConfirmedInv(s: State, a: RunnerAction)
    requires ConfirmedInv(s) && CommanderInv(s) && LogInv(s) && RunnerStep(s, a).Some?
    ensures ConfirmedInv(RunnerStep(s, a).value)
  {
    hide Append, Latest, NamesPid, Completed, CompletedOnlyAs, CommanderWrote, CommanderSettled, StarterRuns,
         ApproverKeepsOpen, Published;
  }

  /** Before the end of a turn nobody has marked, its job is open. */
  lemma UnmarkedTurnIsOpen(s: State)
    requires LogInv(s) && CommanderInv(s) && !s.shared.marker && !s.runner.at.Ended?
    ensures Open(Latest(s.shared.log).status)
  {
    hide NamesPid, Completed, CompletedOnlyAs, CommanderWrote, CommanderSettled, StarterRuns, ApproverKeepsOpen;
    LatestIsIn(s.shared.log);
  }

  /** So the monitor records what the agent reported, or a failure. */
  lemma UnmarkedVerdictIsReported(s: State)
    requires LogInv(s) && CommanderInv(s) && LoopInv(s) && !s.shared.marker && RunnerStep(s, JudgeByLog).Some?
    ensures var at := RunnerStep(s, JudgeByLog).value.runner.at; at.MustComplete? && Reported(at.verdict)
  {
    UnmarkedTurnIsOpen(s);
    hide Latest, LogInv, CommanderInv, Append, Retire;
  }

  lemma RunnerKeepsLateMarkInv(s: State, a: RunnerAction)
    requires LateMarkInv(s) && LogInv(s) && CommanderInv(s) && LoopInv(s) && RunnerStep(s, a).Some?
    ensures LateMarkInv(RunnerStep(s, a).value)
  {
    hide LogInv, CommanderInv, LoopInv, Reported, EvidenceStatus, InterruptedStatus;
    if a.JudgeByLog? && !s.shared.marker {
      UnmarkedVerdictIsReported(s);
    }
    hide Retire, Append, Latest, Published;
  }

  // ---- Each commander step keeps each part ----

  lemma CommanderKeepsCacheInv(s: State, a: CommanderAction)
    requires CacheInv(s) && CommanderStep(s, a).Some?
    ensures CacheInv(CommanderStep(s, a).value)
  {
    hide Append, Latest, NamesPid, Completed, CompletedOnlyAs, CommanderWrote, CommanderSettled, StarterRuns,
         ApproverKeepsOpen, Published;
  }

  lemma CommanderKeepsLogInv(s: State, a: CommanderAction)
    requires LogInv(s) && CommanderInv(s) && CommanderStep(s, a).Some?
    ensures LogInv(CommanderStep(s, a).value)
  {
    hide Retire, Append, Latest, NamesPid, Completed, CompletedOnlyAs, CommanderWrote, CommanderSettled, StarterRuns,
         ApproverKeepsOpen, Published;
    LogGrows(s.shared.log, CommanderStep(s, a).value.shared.log, JobStatus(s.interrupt));
  }

  lemma CommanderKeepsCommanderInv(s: State, a: CommanderAction)
    requires CommanderInv(s) && LogInv(s) && CacheInv(s) && CommanderStep(s, a).Some?
    ensures CommanderInv(CommanderStep(s, a).value)
  {
    hide Append, Latest, NamesPid, Completed, CompletedOnlyAs, CommanderWrote, CommanderSettled, StarterRuns,
         ApproverKeepsOpen, Published;
    LatestIsIn(s.shared.log);
  }

  lemma CommanderKeepsStoppedInv(s: State, a: CommanderAction)
    requires StoppedInv(s) && CommanderInv(s) && CommanderStep(s, a).Some?
    ensures StoppedInv(CommanderStep(s, a).value)
  {
    hide Append, Latest, NamesPid, Completed, CompletedOnlyAs, CommanderWrote, CommanderSettled, StarterRuns,
         ApproverKeepsOpen, Published;
  }

  lemma CommanderKeepsLoopInv(s: State, a: CommanderAction)
    requires LoopInv(s) && CommanderStep(s, a).Some?
    ensures LoopInv(CommanderStep(s, a).value)
  {
    hide Append, Latest, NamesPid, Completed, CompletedOnlyAs, CommanderWrote, CommanderSettled, StarterRuns,
         ApproverKeepsOpen, Published;
  }

  lemma CommanderKeepsEarlyMarkInv(s: State, a: CommanderAction)
    requires EarlyMarkInv(s) && LoopInv(s) && CacheInv(s) && CommanderStep(s, a).Some?
    ensures EarlyMarkInv(CommanderStep(s, a).value)
  {
    hide Append, Latest, NamesPid, Completed, CompletedOnlyAs, CommanderWrote, CommanderSettled, StarterRuns,
         ApproverKeepsOpen, Published;
  }

  lemma CommanderKeepsKilledInv(s: State, a: CommanderAction)
    requires KilledInv(s) && CommanderInv(s) && CommanderStep(s, a).Some?
    ensures KilledInv(CommanderStep(s, a).value)
  {
    hide Append, Latest, NamesPid, Completed, CompletedOnlyAs, CommanderWrote, CommanderSettled, StarterRuns,
         ApproverKeepsOpen, Published;
  }

  lemma CommanderKeepsVerdictInv(s: State, a: CommanderAction)
    requires VerdictInv(s) && CommanderInv(s) && LogInv(s) && CommanderStep(s, a).Some?
    ensures VerdictInv(CommanderStep(s, a).value)
  {
    hide Retire, Append, Latest, NamesPid, Completed, CompletedOnlyAs, CommanderWrote, CommanderSettled, StarterRuns,
         ApproverKeepsOpen, Published;
    LogGrows(s.shared.log, CommanderStep(s, a).value.shared.log, JobStatus(s.interrupt));
  }

  lemma CommanderKeepsLatestInv(s: State, a: CommanderAction)
    requires LatestInv(s) && LogInv(s) && CommanderInv(s) && CommanderStep(s, a).Some?
    ensures LatestInv(CommanderStep(s, a).value)
  {
    hide Retire, Append, Latest, NamesPid, Completed, CompletedOnlyAs, CommanderWrote, CommanderSettled, StarterRuns,
         ApproverKeepsOpen, Published;
    LatestIsIn(s.shared.log);
  }

  lemma CommanderKeepsSettledInv(s: State, a: CommanderAction)
    requires SettledInv(s) && CommanderInv(s) && StoppedInv(s) && CommanderStep(s, a).Some?
    ensures SettledInv(CommanderStep(s, a).value)
  {
    hide Retire, Append, Latest, NamesPid, Completed, CompletedOnlyAs, CommanderWrote, CommanderSettled, StarterRuns,
         ApproverKeepsOpen, Published;
    LogGrows(s.shared.log, CommanderStep(s, a).value.shared.log, JobStatus(s.interrupt));
  }

  lemma CommanderKeepsStoredInv(s: State, a: CommanderAction)
    requires StoredInv(s) && LoopInv(s) && CacheInv(s) && CommanderStep(s, a).Some?
    ensures StoredInv(CommanderStep(s, a).value)
  {
    hide Append, Latest, NamesPid, Completed, CompletedOnlyAs, CommanderWrote, CommanderSettled, StarterRuns,
         ApproverKeepsOpen, Published;
  }

  lemma CommanderKeepsRetiredInv(s: State, a: CommanderAction)
    requires RetiredInv(s) && CommanderInv(s) && CommanderStep(s, a).Some?
    ensures RetiredInv(CommanderStep(s, a).value)
  {
    hide Append, Latest, NamesPid, Completed, CompletedOnlyAs, CommanderWrote, CommanderSettled, StarterRuns,
         ApproverKeepsOpen, Published;
  }

  lemma CommanderKeepsRefusalInv(s: State, a: CommanderAction)
    requires RefusalInv(s) && CommanderInv(s) && LogInv(s) && CommanderStep(s, a).Some?
    ensures RefusalInv(CommanderStep(s, a).value)
  {
    hide Append, Latest, NamesPid, Completed, CompletedOnlyAs, CommanderWrote, CommanderSettled, StarterRuns,
         ApproverKeepsOpen, Published;
  }

  lemma CommanderKeepsConfirmedInv(s: State, a: CommanderAction)
    requires ConfirmedInv(s) && CommanderInv(s) && LogInv(s) && CommanderStep(s, a).Some?
    ensures ConfirmedInv(CommanderStep(s, a).value)
  {
    hide Append, Latest, NamesPid, Completed, CompletedOnlyAs, CommanderWrote, CommanderSettled, StarterRuns,
         ApproverKeepsOpen, Published;
  }

  lemma CommanderKeepsLateMarkInv(s: State, a: CommanderAction)
    requires LateMarkInv(s) && ConfirmedInv(s) && CommanderInv(s) && CommanderStep(s, a).Some?
    ensures LateMarkInv(CommanderStep(s, a).value)
  {
    hide Retire, Append, Latest, NamesPid, Completed, CompletedOnlyAs, CommanderWrote, CommanderSettled, StarterRuns,
         ApproverKeepsOpen, Published;
  }

  lemma ChildExitKeepsProcesses(s: State)
    requires Inv(s) && Step(s, ChildExits).Some?
    ensures var t := Step(s, ChildExits).value;
            CacheInv(t) && StoppedInv(t) && EarlyMarkInv(t) && KilledInv(t) && SettledInv(t) && StoredInv(t)
  {
    hide LogInv, CommanderInv, LoopInv, VerdictInv, LatestInv, RetiredInv, RefusalInv, ConfirmedInv, LateMarkInv;
    hide CommanderSettled, RunnerStep, CommanderStep;
  }

  lemma ChildExitKeepsRecords(s: State)
    requires Inv(s) && Step(s, ChildExits).Some?
    ensures var t := Step(s, ChildExits).value;
            && LogInv(t) && CommanderInv(t) && LoopInv(t) && VerdictInv(t) && LatestInv(t)
            && RetiredInv(t) && RefusalInv(t) && ConfirmedInv(t) && LateMarkInv(t)
  {
    hide CacheInv, StoppedInv, EarlyMarkInv, KilledInv, SettledInv, StoredInv;
    hide NamesPid, Completed, CompletedOnlyAs, CommanderWrote, StarterRuns, ApproverKeepsOpen, Latest, RunnerStep,
         CommanderStep;
  }

  lemma PriorExitKeepsInv(s: State)
    requires Inv(s) && Step(s, PriorExits).Some?
    ensures Inv(Step(s, PriorExits).value)
  {
    hide NamesPid, Completed, CompletedOnlyAs, CommanderWrote, CommanderSettled, StarterRuns,
         ApproverKeepsOpen, Append, Retire, Latest;
    hide RunnerStep, CommanderStep;
  }

  lemma VerdictIsKnown(s: State)
    requires Inv(s)
    ensures s.runner.at.MustComplete? ==> !Open(s.runner.at.verdict)
  {
  }

  lemma StepKeepsInv(s: State, a: Action)
    requires Inv(s) && Step(s, a).Some?
    ensures Inv(Step(s, a).value)
  {
    VerdictIsKnown(s);
    hide CacheInv, LogInv, CommanderInv, StoppedInv, LoopInv, EarlyMarkInv, KilledInv, VerdictInv, LatestInv,
         SettledInv, StoredInv, RetiredInv, RefusalInv, ConfirmedInv, LateMarkInv,
         RunnerStep, CommanderStep;
    match a {
      case ByRunner(r) =>
        RunnerKeepsCacheInv(s, r);
        RunnerKeepsLogInv(s, r);
        RunnerKeepsCommanderInv(s, r);
        RunnerKeepsStoppedInv(s, r);
        RunnerKeepsLoopInv(s, r);
        RunnerKeepsEarlyMarkInv(s, r);
        RunnerKeepsKilledInv(s, r);
        RunnerKeepsVerdictInv(s, r);
        RunnerKeepsLatestInv(s, r);
        RunnerKeepsSettledInv(s, r);
        RunnerKeepsStoredInv(s, r);
        RunnerKeepsRetiredInv(s, r);
        RunnerKeepsRefusalInv(s, r);
        RunnerKeepsConfirmedInv(s, r);
        RunnerKeepsLateMarkInv(s, r);
      case ByCommander(c) =>
        CommanderKeepsCacheInv(s, c);
        CommanderKeepsLogInv(s, c);
        CommanderKeepsCommanderInv(s, c);
        CommanderKeepsStoppedInv(s, c);
        CommanderKeepsLoopInv(s, c);
        CommanderKeepsEarlyMarkInv(s, c);
        CommanderKeepsKilledInv(s, c);
        CommanderKeepsVerdictInv(s, c);
        CommanderKeepsLatestInv(s, c);
        CommanderKeepsSettledInv(s, c);
        CommanderKeepsStoredInv(s, c);
        CommanderKeepsRetiredInv(s, c);
        CommanderKeepsRefusalInv(s, c);
        CommanderKeepsConfirmedInv(s, c);
        CommanderKeepsLateMarkInv(s, c);
      case ChildExits =>
        ChildExitKeepsProcesses(s);
        ChildExitKeepsRecords(s);
      case PriorExits => PriorExitKeepsInv(s);
    }
  }

  lemma {:induction false} RunKeepsInv(s: State, actions: seq<Action>)
    requires Inv(s) && Run(s, actions).Some?
    ensures Inv(Run(s, actions).value)
    ensures Run(s, actions).value.interrupt == s.interrupt && Run(s, actions).value.echo == s.echo
    decreases actions
  {
    hide Inv, Step;
    if actions != [] {
      StepKeepsInv(s, actions[0]);
      StepKeepsRequest(s, actions[0]);
      RunKeepsInv(Step(s, actions[0]).value, actions[1..]);
    }
  }

  lemma RunnerKeepsRequest(s: State, a: RunnerAction)
    requires RunnerStep(s, a).Some?
    ensures var t := RunnerStep(s, a).value;
            t.interrupt == s.interrupt && t.echo == s.echo && t.commander == s.commander
  {
    hide Retire, Published, InterruptedStatus, EvidenceStatus;
  }

  lemma CommanderKeepsRequest(s: State, a: CommanderAction)
    requires CommanderStep(s, a).Some?
    ensures var t := CommanderStep(s, a).value;
            t.interrupt == s.interrupt && t.echo == s.echo && !s.commander.Returned?
  {
    hide Retire, BeforeLoop, BeforeVerdict;
  }

  lemma StepKeepsRequest(s: State, a: Action)
    requires Step(s, a).Some?
    ensures Step(s, a).value.interrupt == s.interrupt && Step(s, a).value.echo == s.echo
    ensures s.commander.Returned? ==> Step(s, a).value.commander == s.commander
  {
    hide RunnerStep, CommanderStep;
    match a {
      case ByRunner(r) => RunnerKeepsRequest(s, r);
      case ByCommander(c) => CommanderKeepsRequest(s, c);
      case _ =>
    }
  }

  lemma {:induction false} ReturnedStays(s: State, actions: seq<Action>)
    requires s.commander.Returned? && Run(s, actions).Some?
    ensures Run(s, actions).value.commander == s.commander
    decreases actions
  {
    hide Step;
    if actions != [] {
      StepKeepsRequest(s, actions[0]);
      ReturnedStays(Step(s, actions[0]).value, actions[1..]);
    }
  }

  lemma StartInv(interrupt: Interrupt, echo: bool, cached: bool, priorAlive: bool)
    ensures Inv(Start(interrupt, echo, cached, priorAlive))
  {
  }

  /** A state some run of the turn leads to. */
  ghost predicate Reachable(s: State) {
    exists cached, priorAlive, actions: seq<Action> ::
      Run(Start(s.interrupt, s.echo, cached, priorAlive), actions) == Some(s)
  }

  lemma ReachableInv(s: State)
    requires Reachable(s)
    ensures Inv(s)
  {
    hide Inv, Run;
    var cached, priorAlive, actions: seq<Action> :|
      Run(Start(s.interrupt, s.echo, cached, priorAlive), actions) == Some(s);
    StartInv(s.interrupt, s.echo, cached, priorAlive);
    RunKeepsInv(Start(s.interrupt, s.echo, cached, priorAlive), actions);
  }

  // ---- The protocol's promises ----

  /** Does the cache hold a running child for the session? */
  predicate LiveCached(s: State) {
    (s.shared.cache.Prior? && s.shared.priorAlive) || (s.shared.cache.Current? && s.shared.alive)
  }

  /** Once a cancel or kill has returned Ok, in this state and after any
      further steps the cache holds no running child for the session. */
  lemma InterruptedSessionStaysUncached(s: State, actions: seq<Action>)
    requires Reachable(s) && s.interrupt != Pause
    requires s.commander.Returned? && !s.commander.outcome.Refused?
    requires Run(s, actions).Some?
    ensures !LiveCached(Run(s, actions).value)
  {
    hide Run;
    ReachableInv(s);
    RunKeepsInv(s, actions);
    ReturnedStays(s, actions);
  }

  /** Even a refused cancel or kill wins if it was marked before the prompt
      loop: when the turn is over its child is dead and not cached. */
  lemma EarlyMarkStopsTheTurn(s: State)
    requires Reachable(s) && s.interrupt != Pause
    requires MarkedBeforeLoop(s.history) && s.runner.at.Ended?
    ensures !s.shared.alive && !LiveCached(s)
  {
    ReachableInv(s);
  }

  /** Where is the runner when it will certainly see the marker in time, or has
      nothing left to cache? */
  predicate SafeToMark(at: RunnerAt) {
    BeforeLoop(at) || Released(at)
  }

  /** A cancel or kill marked at a safe moment leaves no running child cached
      from its return on, be it refused or not. */
  lemma SafeMarkLeavesNoneCached(s: State)
    requires Reachable(s) && s.interrupt != Pause
    requires s.commander.Returned? && s.history.markedAt.Some? && SafeToMark(s.history.markedAt.value)
    ensures !LiveCached(s)
  {
    ReachableInv(s);
  }

  /** A live child never hides behind a commander record that ends the job, and
      when the monitor has recorded the end of the turn, a live child can only
      be the idle one in the cache. */
  lemma NoLiveChildHidden(s: State)
    requires Reachable(s)
    ensures CommanderSettled(s.shared.log) ==> !s.shared.alive
    ensures Completed(s.shared.log) && s.shared.alive ==> s.shared.cache.Current?
  {
    hide CommanderSettled, Completed;
    ReachableInv(s);
  }

  /** A pause that reports its connection kept, once the runner is done: the
      cache holds the running child exactly when the turn was not dropped and
      the child did not exit by itself. A turn is dropped when it failed, or
      when the agent reported a cancellation of its own and the text the
      commander waits for came from elsewhere. */
  lemma KeptConnectionSurvives(s: State)
    requires Reachable(s)
    requires s.commander == Returned(Interrupted(true)) && Released(s.runner.at)
    ensures LiveCached(s) <==> !Dropped(s.runner) && !s.history.exited
    ensures Dropped(s.runner) ==> !s.shared.alive && s.shared.cache.Empty?
    ensures !Dropped(s.runner) ==> !s.history.killed
    ensures Dropped(s.runner) && !s.runner.final.Errored? ==> s.echo
  {
    ReachableInv(s);
  }

  /** When both threads are done after a confirmed interrupt, the job has the
      status of the interrupt exactly unless the monitor had settled on another
      verdict when the interrupt was recorded. */
  lemma ConfirmedInterruptSettlesJob(s: State)
    requires Reachable(s)
    requires s.runner.at.Ended? && s.commander.Returned? && s.commander.outcome.Interrupted?
    ensures s.history.settledAt.Some?
    ensures var settledAt := s.history.settledAt.value;
            Latest(s.shared.log).status == JobStatus(s.interrupt) <==>
            !(settledAt.MustComplete? && settledAt.verdict != JobStatus(s.interrupt))
    ensures MarkedBeforeVerdict(s.history) ==> Latest(s.shared.log).status == JobStatus(s.interrupt)
  {
    hide CompletedOnlyAs;
    ReachableInv(s);
    LatestIsIn(s.shared.log);
    LastIsOnlyAs(s.shared.log, JobStatus(s.interrupt));
  }

  /** Where is the runner, or its monitor, when a marker comes in time for the
      status of a confirmed interrupt, or so late that nothing follows it? */
  predicate SafeToConfirm(interrupt: Interrupt, at: RunnerAt) {
    match at
    case MustReadLog => false
    case MustComplete(verdict) => verdict == JobStatus(interrupt) || !Reported(verdict)
    case _ => true
  }

  lemma SafeMarkSettlesJob(s: State)
    requires Reachable(s)
    requires s.runner.at.Ended? && s.commander.Returned? && s.commander.outcome.Interrupted?
    requires s.history.markedAt.Some? && SafeToConfirm(s.interrupt, s.history.markedAt.value)
    ensures Latest(s.shared.log).status == JobStatus(s.interrupt)
  {
    hide CompletedOnlyAs, Latest;
    ReachableInv(s);
    ConfirmedInterruptSettlesJob(s);
  }

  /** When both threads are done, the job is left as if it were still going on,
      `running` or waiting for an approval, exactly when the command was refused
      after the monitor had recorded the end of the turn, having read the job
      before that; and then it is left as it was read. */
  lemma TurnLeftOpenExactlyWhenRefusedLate(s: State)
    requires Reachable(s)
    requires s.runner.at.Ended? && (s.commander.Idle? || s.commander.Returned?)
    ensures Open(Latest(s.shared.log).status) <==>
            s.history.refusal.Some? && s.history.refusal.value.at.Ended? && Open(s.history.refusal.value.read)
    ensures s.history.refusal.Some? && s.history.refusal.value.at.Ended? ==>
              Latest(s.shared.log).status == s.history.refusal.value.read
  {
    hide CompletedOnlyAs;
    ReachableInv(s);
    LatestIsIn(s.shared.log);
  }

  lemma LastIsOnlyAs(log: Log, status: Status)
    ensures CompletedOnlyAs(log, status) && Latest(log).writer == Monitor && Latest(log).status != Running ==>
              Latest(log).status == status
  {
  }

}
