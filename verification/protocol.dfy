/**
 The durable task lifecycle as a labelled transition system over one persistent table
 (ai_bridge/manager.py, with the statements of ai_bridge/store.py as atomic writes).

 A step is the code between two suspension points of the event loop. The bodies under the
 manager's lock contain no await, so they run as part of one step.
 */
module Protocol {
  import opened Wrappers
  import opened TaskStates
  import opened TaskTable
  import opened Counting
  import opened PathPolicy

  // ----- Configuration -----

  datatype RecoveryPolicy = Manual | Idempotent | Always

  datatype RecoveryConfig = RecoveryConfig(policy: RecoveryPolicy, delaySeconds: real)

  datatype Limits = Limits(
    globalPendingTasks: nat,
    globalActiveTasks: nat,
    perWorkerPendingTasks: nat,
    perWorkerActiveTasks: Option<nat>)

  datatype WorkerConfig = WorkerConfig(allowsAsync: bool, asyncSeconds: real, writePaths: seq<string>)

  datatype Config = Config(recovery: RecoveryConfig, limits: Limits, workers: map<WorkerId, WorkerConfig>)

  // ----- State -----

  /** One background coroutine: the task it was started for and the serial number of the call that scheduled it. */
  datatype Handle = Handle(taskId: TaskId, serial: nat)

  /** Where a coroutine is suspended, with the local record it holds there. */
  datatype Pc =
    | NotStarted
    | Sleeping(snapshot: TaskRecord)
    | Calling(task: TaskRecord, recoveryAttempt: bool, sent: bool)

  datatype Runner = Runner(pc: Pc, cancelRequested: bool)

  /** One request leaving for a worker, with its time limit and the metadata of ai_bridge/workers.py:195-223. */
  datatype Dispatch = Dispatch(
    taskId: TaskId,
    workerId: WorkerId,
    prompt: string,
    workingDirectory: Option<string>,
    timeoutSeconds: real,
    idempotencyKey: Option<string>,
    attemptId: Option<AttemptId>,
    attemptNumber: nat,
    recoveryAttempt: bool)

  /** Idle: not started, or stopped. Stopping: `stop` is waiting for these coroutines to finish. */
  datatype Phase = Idle | Serving | Stopping(waiting: set<Handle>)

  datatype Counters = Counters(created: map<(WorkerId, Mode), nat>, completed: map<(WorkerId, TaskState), nat>)

  /**
   `table` is durable; `runners`, `background`, `phase` and `counters` live in the process.
   `log` records every request ever sent, `boot` the table when this process began,
   `deferred` the tasks refused replay at the last start, and `supply` the next unused
   identifier: these four only observe.
   */
  datatype State = State(
    table: Table,
    runners: map<Handle, Runner>,
    background: map<TaskId, Handle>,
    phase: Phase,
    config: Config,
    counters: Counters,
    log: seq<Dispatch>,
    boot: Table,
    deferred: set<TaskId>,
    supply: nat)

  ghost predicate Init(s: State) {
    s.table == map[] && s.runners == map[] && s.background == map[] && s.phase == Idle
    && s.counters == Counters(map[], map[]) && s.log == [] && s.boot == map[] && s.deferred == {}
  }

  /** `active_count`: background entries whose coroutine is not done. */
  function ActiveIds(s: State): set<TaskId> {
    set id | id in s.background && s.background[id] in s.runners
  }

  predicate Open(s: State, id: TaskId) {
    id in s.table && !Terminal(s.table[id].state)
  }

  // ----- Pieces shared by several steps -----

  /** The coroutine returns; its done callback pops whatever handle its id has. */
  function Finish(s: State, h: Handle): State {
    s.(runners := s.runners - {h}, background := s.background - {h.taskId})
  }

  function Write(s: State, task: TaskRecord): State {
    s.(table := Put(s.table, task))
  }

  /** Persist a terminal record and count it. */
  function Settle(s: State, task: TaskRecord): State {
    Write(s, task).(counters := s.counters.(completed := Bumped(s.counters.completed, (task.workerId, task.state))))
  }

  /** Move an open record to a terminal state if the table of transitions has that edge; otherwise change nothing. */
  function SettleAs(s: State, id: TaskId, target: TaskState, error: Option<string>, result: Option<Payload>,
                    now: Time): State {
    if !Open(s, id) then s
    else
      match s.table[id].Transition(target, now, error, result)
      case Ok(settled) => Settle(s, settled)
      case Err(_) => s
  }

  /** The `except TimeoutError` and `except Exception` handlers with `_fail_terminal`. */
  function HandleFailure(s: State, id: TaskId, failure: Failure, now: Time): State {
    SettleAs(s, id, FailureTarget(failure), Some(FailureMessage(failure)), None, now)
  }

  function SetPc(s: State, h: Handle, pc: Pc): State
    requires h in s.runners
  {
    s.(runners := s.runners[h := s.runners[h].(pc := pc)])
  }

  // ----- call(mode="async") -----

  datatype SaturatedScope = GlobalPending | WorkerPending | GlobalActive | WorkerActive

  /** `_enforce_async_limits`, in the order of its checks. */
  function Saturation(s: State, worker: WorkerId): Option<SaturatedScope> {
    var limits := s.config.limits;
    if CountByStates(s.table, QUEUED_STATES, None) >= limits.globalPendingTasks then Some(GlobalPending)
    else if CountByStates(s.table, QUEUED_STATES, Some(worker)) >= limits.perWorkerPendingTasks then Some(WorkerPending)
    else if |ActiveIds(s)| >= limits.globalActiveTasks then Some(GlobalActive)
    else if limits.perWorkerActiveTasks.Some?
      && CountByStates(s.table, ACTIVE_STATES, Some(worker)) >= limits.perWorkerActiveTasks.value
      then Some(WorkerActive)
    else None
  }

  datatype Request = Request(workerId: WorkerId, prompt: string, front: Frontmatter, key: Option<string>, now: Time)

  datatype Refusal = UnknownWorker | BadDirectory(error: DirectoryError) | ModeNotAllowed | Saturated(scope: SaturatedScope)

  /** The checks a submission passes before the store is touched; on success the directory to run in. */
  function Admission(s: State, r: Request): Result<string, Refusal> {
    if r.workerId !in s.config.workers then Err(UnknownWorker)
    else
      var worker := s.config.workers[r.workerId];
      match ResolveDirectory(r.front, worker.writePaths)
      case Err(error) => Err(BadDirectory(error))
      case Ok(directory) =>
        if !worker.allowsAsync then Err(ModeNotAllowed)
        else
          match Saturation(s, r.workerId)
          case Some(scope) => Err(Saturated(scope))
          case None => Ok(directory)
  }

  function NewRecord(s: State, r: Request, directory: string): TaskRecord
    requires r.workerId in s.config.workers
  {
    TaskRecord(s.supply, r.workerId, r.prompt, Some(directory), r.key, None, 0, Pending, None, None,
               r.now, r.now, None, None, s.config.workers[r.workerId].asyncSeconds)
  }

  /** A submission creates a record exactly when it is admitted and no row holds its key. */
  predicate Creates(s: State, r: Request) {
    Admission(s, r).Ok? && !KeyHeld(s.table, r.key)
  }

  /** An admitted submission whose non-empty key is held returns the holder. */
  predicate Replays(s: State, r: Request) {
    Admission(s, r).Ok? && KeyGiven(r.key) && KeyHeld(s.table, r.key)
  }

  /** Insert, count and schedule in one step. */
  function Create(s: State, r: Request): State
    requires Creates(s, r)
  {
    var task := NewRecord(s, r, Admission(s, r).value);
    var h := Handle(task.taskId, s.supply);
    Write(s, task).(
      counters := s.counters.(created := Bumped(s.counters.created, (r.workerId, Async))),
      runners := s.runners[h := Runner(NotStarted, false)],
      background := s.background[task.taskId := h],
      supply := s.supply + 1)
  }

  function Submit(s: State, r: Request): State {
    if Creates(s, r) then Create(s, r) else s
  }

  // ----- cancel -----

  function RequestCancel(s: State, id: TaskId): State {
    if id in s.background && s.background[id] in s.runners then
      var h := s.background[id];
      s.(runners := s.runners[h := s.runners[h].(cancelRequested := true)])
    else s
  }

  const CANCELLED_BY_CALLER := "cancelled by caller"
  const BACKGROUND_CANCELLED := "background task cancelled"

  function Cancel(s: State, id: TaskId, now: Time): State {
    if !Open(s, id) then s
    else SettleAs(RequestCancel(s, id), id, Cancelled, Some(CANCELLED_BY_CALLER), None, now)
  }

  // ----- start, stop, crash, reload -----

  /** `_recovery_allows_replay`. */
  predicate AllowsReplay(policy: RecoveryPolicy, task: TaskRecord) {
    policy == Always || (policy == Idempotent && task.HasKey()) || (policy == Manual && task.state == Pending)
  }

  /** `start` schedules every open record but a Recovering one that is refused replay. */
  predicate Scheduled(policy: RecoveryPolicy, task: TaskRecord) {
    !Terminal(task.state) && (task.state == Recovering ==> AllowsReplay(policy, task))
  }

  /** The ids `start` gives a new coroutine: `_schedule` skips an id whose background handle is live. */
  function ToSchedule(s: State, marked: Table): set<TaskId> {
    set id | id in marked && Scheduled(s.config.recovery.policy, marked[id]) && id !in ActiveIds(s)
  }

  /** The ids `start` refuses to replay. */
  function Deferred(s: State, marked: Table): set<TaskId> {
    set id | id in marked && !Terminal(marked[id].state) && !Scheduled(s.config.recovery.policy, marked[id])
  }

  /** A coroutine that has not begun, added for each of these ids. */
  ghost function WithCoroutines(runners: map<Handle, Runner>, ids: set<TaskId>, serial: nat): (more: map<Handle,
                                Runner>)
    ensures forall h :: h in more <==> h in runners || (h.taskId in ids && h.serial == serial)
    ensures forall h :: h in more ==>
      more[h] == if h.taskId in ids && h.serial == serial then Runner(NotStarted, false) else runners[h]
    decreases |ids|
  {
    if ids == {} then runners
    else
      var id :| id in ids;
      WithCoroutines(runners, ids - {id}, serial)[Handle(id, serial) := Runner(NotStarted, false)]
  }

  /** The background map with the new handle of each of these ids. */
  ghost function WithHandles(background: map<TaskId, Handle>, ids: set<TaskId>, serial: nat): (more: map<TaskId,
                             Handle>)
    ensures forall id :: id in more <==> id in background || id in ids
    ensures forall id :: id in more ==> more[id] == if id in ids then Handle(id, serial) else background[id]
    decreases |ids|
  {
    if ids == {} then background
    else
      var id :| id in ids;
      WithHandles(background, ids - {id}, serial)[id := Handle(id, serial)]
  }

  ghost function Start(s: State, now: Time): State {
    if s.phase != Idle then s
    else
      var marked := MarkRecovering(s.table, now);
      var ids := ToSchedule(s, marked);
      s.(table := marked,
         runners := WithCoroutines(s.runners, ids, s.supply),
         background := WithHandles(s.background, ids, s.supply),
         phase := Serving,
         deferred := Deferred(s, marked),
         supply := s.supply + 1)
  }

  /** The coroutines with a cancellation requested of each of these. */
  ghost function Flagged(runners: map<Handle, Runner>, handles: set<Handle>): (flagged: map<Handle, Runner>)
    ensures flagged.Keys == runners.Keys
    ensures forall h :: h in runners ==>
      flagged[h] == if h in handles then runners[h].(cancelRequested := true) else runners[h]
    decreases |handles|
  {
    if handles == {} then runners
    else
      var h :| h in handles;
      var rest := Flagged(runners, handles - {h});
      if h in runners then rest[h := runners[h].(cancelRequested := true)] else rest
  }

  function BackgroundHandles(s: State): set<Handle> {
    set id | id in s.background :: s.background[id]
  }

  /** `stop` after its gather: the background map is cleared, whatever it holds by now. */
  function StopEnd(s: State): State {
    s.(background := map[], phase := Idle)
  }

  /** `stop` up to its gather: every background coroutine is told to cancel; with none, `stop` ends in the same step. */
  ghost function StopBegin(s: State): State {
    if s.phase != Serving then s
    else
      var waiting := BackgroundHandles(s);
      if waiting == {} then StopEnd(s)
      else s.(runners := Flagged(s.runners, waiting), phase := Stopping(waiting))
  }

  /** The process dies and a new one begins with the table it left. */
  function Crash(s: State): State {
    s.(runners := map[], background := map[], phase := Idle, counters := Counters(map[], map[]), boot := s.table,
      deferred := {})
  }

  function Reload(s: State, config: Config): State {
    s.(config := config)
  }

  /**
   A reload that names another store (ai_bridge/server.py:242-251), seen from this store:
   refused while a background coroutine is live, otherwise this store's manager is stopped at once.
   */
  function SwitchStore(s: State): State {
    if s.phase != Serving || ActiveIds(s) != {} then s
    else s.(background := map[], phase := Idle)
  }

  // ----- The background coroutine -----

  const UNIQUE_FAILURE: Failure := Raised("UNIQUE constraint failed: tasks.idempotency_key", "IntegrityError")

  /** Lines 166-171 and the start of the worker call: take an attempt, persist Running, enter the call. */
  function TakeAttempt(s: State, h: Handle, task: TaskRecord, now: Time): State
    requires h in s.runners
  {
    var recovering := task.state == Recovering;
    if recovering || task.state == Pending then
      var pending := if recovering then task.Transition(Pending, now, None, None).value else task;
      var running := pending.NextAttempt(s.supply, now).Transition(Running, now, None, None).value;
      if Conflicts(s.table, running) then Finish(HandleFailure(s, h.taskId, UNIQUE_FAILURE, now), h)
      else SetPc(Write(s, running).(supply := s.supply + 1), h, Calling(running, recovering, false))
    else
      SetPc(s, h, Calling(task, false, false))
  }

  function Listed(items: seq<string>): string {
    if |items| == 0 then "" else if |items| == 1 then items[0] else items[0] + ", " + Listed(items[1..])
  }

  function DirectoryFailure(error: DirectoryError): Failure {
    match error
    case MissingDirectory => Raised("working_directory is required in YAML frontmatter", "MissingWorkingDirectory")
    case InvalidDirectory(path, allowList) =>
      Raised("Specified working_directory '" + path + "' not in allowed paths: "
        + (if allowList == [] then "(none)" else Listed(allowList)),
             "InvalidWorkingDirectory")
  }

  /** The coroutine from line 162: fill in a missing directory, then take an attempt. */
  function Body(s: State, h: Handle, task: TaskRecord, front: Frontmatter, now: Time): State
    requires h in s.runners
  {
    if task.workingDirectory.Some? then TakeAttempt(s, h, task, now)
    else if task.workerId !in s.config.workers then
      Finish(HandleFailure(s, h.taskId, Raised("'unknown worker_id: " + task.workerId + "'", "KeyError"), now), h)
    else
      match ResolveDirectory(front, s.config.workers[task.workerId].writePaths)
      case Err(error) => Finish(HandleFailure(s, h.taskId, DirectoryFailure(error), now), h)
      case Ok(directory) =>
        var filled := task.(workingDirectory := Some(directory));
        if Conflicts(s.table, filled) then Finish(HandleFailure(s, h.taskId, UNIQUE_FAILURE, now), h)
        else TakeAttempt(Write(s, filled), h, filled, now)
  }

  /** The coroutine's first step; one that was cancelled before it never enters its `try`. */
  function First(s: State, h: Handle, front: Frontmatter, now: Time): State
    requires h in s.runners
  {
    if s.runners[h].cancelRequested || !Open(s, h.taskId) then Finish(s, h)
    else
      var task := s.table[h.taskId];
      if s.config.recovery.delaySeconds != 0.0 && task.state == Recovering then SetPc(s, h, Sleeping(task))
      else Body(s, h, task, front, now)
  }

  function DispatchOf(task: TaskRecord, recoveryAttempt: bool): Dispatch {
    Dispatch(task.taskId, task.workerId, task.prompt, task.workingDirectory, task.timeoutSeconds, task.idempotencyKey,
             task.dispatchAttemptId, task.attemptCount, recoveryAttempt)
  }

  /** The request leaves for the worker, with the values of the coroutine's local record. */
  function Send(s: State, h: Handle): State
    requires h in s.runners && s.runners[h].pc.Calling?
  {
    var pc := s.runners[h].pc;
    SetPc(s.(log := s.log + [DispatchOf(pc.task, pc.recoveryAttempt)]), h, pc.(sent := true))
  }

  datatype Reply = Returned(result: Payload) | Threw(failure: Failure)

  /** The worker call returns or raises, and the coroutine runs to its end. */
  function Receive(s: State, h: Handle, reply: Reply, now: Time): State {
    match reply
    case Threw(failure) => Finish(HandleFailure(s, h.taskId, failure, now), h)
    case Returned(result) =>
      if !Open(s, h.taskId) then Finish(s, h)
      else
        match s.table[h.taskId].Transition(Completed, now, None, Some(result))
        case Ok(completed) => Finish(Settle(s, completed), h)
        case Err(refused) => Finish(HandleFailure(s, h.taskId, Raised(refused.Message(), "InvalidTransition"), now), h)
  }

  /** A requested cancellation is raised at the point where the coroutine is suspended. */
  function Interrupt(s: State, h: Handle, now: Time): State {
    Finish(SettleAs(s, h.taskId, Cancelled, Some(BACKGROUND_CANCELLED), None, now), h)
  }

  // ----- The transition system -----

  datatype Label =
    | SubmitStep(request: Request)
    | CancelStep(taskId: TaskId, now: Time)
    | StartStep(now: Time)
    | StopBeginStep
    | StopEndStep
    | CrashStep
    | ReloadStep(config: Config)
    | SwitchStoreStep
    | FirstStep(h: Handle, front: Frontmatter, now: Time)
    | WakeStep(h: Handle, front: Frontmatter, now: Time)
    | SendStep(h: Handle)
    | ReceiveStep(h: Handle, reply: Reply, now: Time)
    | InterruptStep(h: Handle, now: Time)

  predicate Enabled(s: State, l: Label) {
    match l
    case StopEndStep => s.phase.Stopping? && s.phase.waiting !! s.runners.Keys
    case FirstStep(h, _, _) => h in s.runners && s.runners[h].pc.NotStarted?
    case WakeStep(h, _, _) => h in s.runners && s.runners[h].pc.Sleeping? && !s.runners[h].cancelRequested
    case SendStep(h) => h in s.runners && s.runners[h].pc.Calling? && !s.runners[h].pc.sent
      && !s.runners[h].cancelRequested
    case ReceiveStep(h, reply, _) =>
      h in s.runners && s.runners[h].pc.Calling? && !s.runners[h].cancelRequested
        && (reply.Returned? ==> s.runners[h].pc.sent)
    case InterruptStep(h, _) => h in s.runners && !s.runners[h].pc.NotStarted? && s.runners[h].cancelRequested
    case _ => true
  }

  ghost function Next(s: State, l: Label): State
    requires Enabled(s, l)
  {
    match l
    case SubmitStep(request) => Submit(s, request)
    case CancelStep(id, now) => Cancel(s, id, now)
    case StartStep(now) => Start(s, now)
    case StopBeginStep => StopBegin(s)
    case StopEndStep => StopEnd(s)
    case CrashStep => Crash(s)
    case ReloadStep(config) => Reload(s, config)
    case SwitchStoreStep => SwitchStore(s)
    case FirstStep(h, front, now) => First(s, h, front, now)
    case WakeStep(h, front, now) => Body(s, h, s.runners[h].pc.snapshot, front, now)
    case SendStep(h) => Send(s, h)
    case ReceiveStep(h, reply, now) => Receive(s, h, reply, now)
    case InterruptStep(h, now) => Interrupt(s, h, now)
  }

  // ----- Runs -----

  datatype Run = Run(states: seq<State>, labels: seq<Label>)

  ghost predicate StepAt(run: Run, i: nat)
    requires i < |run.labels| && |run.states| == |run.labels| + 1
  {
    Enabled(run.states[i], run.labels[i]) && run.states[i + 1] == Next(run.states[i], run.labels[i])
  }

  ghost predicate IsRun(run: Run) {
    |run.states| == |run.labels| + 1
    && Init(run.states[0])
    && forall i :: 0 <= i < |run.labels| ==> StepAt(run, i)
  }
}
