/**
 What each operation does, told by what can be seen of it: where every record and every request comes from, whom a
 cancel, a stop or a restart reaches, when an attempt is taken and when a coroutine ends.
 */
module Effects {
  import opened Wrappers
  import opened TaskStates
  import opened TaskTable
  import opened PathText
  import opened PathPolicy
  import opened Protocol
  import opened Invariant
  import opened TaskLife
  import opened Theorems
  import opened Dispatches
  import opened Accounting

  // ----- Which submissions are accepted -----

  /** The rows in these states, of one worker if one is given, are fewer than the limit. */
  ghost predicate Fewer(table: Table, states: set<TaskState>, worker: Option<WorkerId>, limit: nat) {
    |set id | id in table && table[id].state in states && (worker.Some? ==> table[id].workerId == worker.value)| < limit
  }

  /** No limit is reached: queued rows, the worker's queued rows, registered coroutines, the worker's rows at work. */
  ghost predicate Unsaturated(s: State, worker: WorkerId) {
    var limits := s.config.limits;
    && Fewer(s.table, {Pending, Recovering}, None, limits.globalPendingTasks)
    && Fewer(s.table, {Pending, Recovering}, Some(worker), limits.perWorkerPendingTasks)
    && |set id | id in s.background && s.background[id] in s.runners| < limits.globalActiveTasks
    && (limits.perWorkerActiveTasks.Some? ==>
      Fewer(s.table, {Running, Retrying}, Some(worker), limits.perWorkerActiveTasks.value))
  }

  /** A known worker that may run in the background, a declared directory on its write list, and room for one more. */
  ghost predicate Admissible(s: State, r: Request) {
    && r.workerId in s.config.workers && s.config.workers[r.workerId].allowsAsync
    && r.front.Declared? && PathIsAllowed(r.front.path, s.config.workers[r.workerId].writePaths)
    && Unsaturated(s, r.workerId)
  }

  /** Nobody has the key yet. */
  ghost predicate NewKey(table: Table, key: Option<string>) {
    key.Some? ==> forall id :: id in table ==> table[id].idempotencyKey != key
  }

  lemma FewerCounts(table: Table, states: set<TaskState>, worker: Option<WorkerId>, limit: nat)
    ensures Fewer(table, states, worker, limit) <==> CountByStates(table, states, worker) < limit
  {
    assert IdsIn(table, states, worker)
      == set id | id in table && table[id].state in states && (worker.Some? ==> table[id].workerId == worker.value);
  }

  lemma UnsaturatedExactly(s: State, worker: WorkerId)
    ensures Unsaturated(s, worker) <==> Saturation(s, worker).None?
  {
    var limits := s.config.limits;
    FewerCounts(s.table, QUEUED_STATES, None, limits.globalPendingTasks);
    FewerCounts(s.table, QUEUED_STATES, Some(worker), limits.perWorkerPendingTasks);
    if limits.perWorkerActiveTasks.Some? {
      FewerCounts(s.table, ACTIVE_STATES, Some(worker), limits.perWorkerActiveTasks.value);
    }
    assert ActiveIds(s) == set id | id in s.background && s.background[id] in s.runners;
  }

  lemma AdmissibleExactly(s: State, r: Request)
    ensures Admissible(s, r) <==> Admission(s, r).Ok?
    ensures NewKey(s.table, r.key) <==> !KeyHeld(s.table, r.key)
  {
    UnsaturatedExactly(s, r.workerId);
  }

  /** What stands in the way of a submission, by kind. */
  ghost predicate Blocked(s: State, r: Request, refusal: Refusal) {
    if r.workerId !in s.config.workers then refusal.UnknownWorker?
    else
      var worker, limits := s.config.workers[r.workerId], s.config.limits;
      match refusal
      case UnknownWorker => false
      case BadDirectory(_) => !(r.front.Declared? && PathIsAllowed(r.front.path, worker.writePaths))
      case ModeNotAllowed => !worker.allowsAsync
      case Saturated(GlobalPending) => !Fewer(s.table, {Pending, Recovering}, None, limits.globalPendingTasks)
      case Saturated(WorkerPending) =>
        !Fewer(s.table, {Pending, Recovering}, Some(r.workerId), limits.perWorkerPendingTasks)
      case Saturated(GlobalActive) =>
        |set id | id in s.background && s.background[id] in s.runners| >= limits.globalActiveTasks
      case Saturated(WorkerActive) =>
        limits.perWorkerActiveTasks.Some?
          && !Fewer(s.table, {Running, Retrying}, Some(r.workerId), limits.perWorkerActiveTasks.value)
  }

  /** The order in which the checks are made. */
  function Rank(refusal: Refusal): nat {
    match refusal
    case UnknownWorker => 0
    case BadDirectory(_) => 1
    case ModeNotAllowed => 2
    case Saturated(GlobalPending) => 3
    case Saturated(WorkerPending) => 4
    case Saturated(GlobalActive) => 5
    case Saturated(WorkerActive) => 6
  }

  /** A refused submission is told the first thing that stands in its way. */
  lemma RefusedForTheFirst(s: State, r: Request, other: Refusal)
    requires Admission(s, r).Err?
    ensures Blocked(s, r, Admission(s, r).error)
    ensures Rank(other) < Rank(Admission(s, r).error) ==> !Blocked(s, r, other)
  {
    var limits := s.config.limits;
    FewerCounts(s.table, QUEUED_STATES, None, limits.globalPendingTasks);
    FewerCounts(s.table, QUEUED_STATES, Some(r.workerId), limits.perWorkerPendingTasks);
    if limits.perWorkerActiveTasks.Some? {
      FewerCounts(s.table, ACTIVE_STATES, Some(r.workerId), limits.perWorkerActiveTasks.value);
    }
    assert ActiveIds(s) == set id | id in s.background && s.background[id] in s.runners;
  }

  // ----- Where records and requests come from -----

  /** The normal form of the declared directory, as the write list admits it. */
  ghost predicate DirectoryFor(directory: Option<string>, front: Frontmatter, writePaths: seq<string>) {
    && directory.Some? && front.Declared?
    && NormalForm(directory.value, LeadingSlashes(front.path), PathNames(front.path))
    && PathIsAllowed(directory.value, writePaths)
  }

  /** The record is what this submission asked for under this configuration. */
  ghost predicate AsSubmitted(r: TaskRecord, request: Request, config: Config) {
    match request
    case Request(workerId, prompt, front, key, now) =>
      && r.workerId == workerId && r.prompt == prompt && r.idempotencyKey == key && r.createdAt == now
      && workerId in config.workers && r.timeoutSeconds == config.workers[workerId].asyncSeconds
      && DirectoryFor(r.workingDirectory, front, config.workers[workerId].writePaths)
  }

  lemma NewAsSubmitted(s: State, r: Request)
    requires Creates(s, r)
    ensures AsSubmitted(NewRecord(s, r, Admission(s, r).value), r, s.config)
  {
    ResolvedIsDispatchable(r.front, s.config.workers[r.workerId].writePaths);
  }

  lemma StillAsSubmitted(r: TaskRecord, r': TaskRecord, request: Request, config: Config)
    requires AsSubmitted(r, request, config) && SameTask(r', r)
    ensures AsSubmitted(r', request, config)
  {
  }

  /** The record was not there before step i, and is there after it. */
  ghost predicate Appears(run: Run, i: nat, id: TaskId) {
    && i < |run.labels| && |run.states| == |run.labels| + 1
    && id !in run.states[i].table && id in run.states[i + 1].table
  }

  /** A task has come in: its record waits, and one new coroutine, registered for it, has not begun. */
  ghost predicate ComesIn(s: State, s': State, id: TaskId) {
    && id !in s.table && id in s'.table && s'.table == s.table[id := s'.table[id]]
    && s'.table[id].taskId == id && s'.table[id].state == Pending && s'.table[id].attemptCount == 0
    && s'.table[id].updatedAt == s'.table[id].createdAt
    && (forall h :: h in s.runners ==> h.taskId != id)
    && (exists h: Handle :: h.taskId == id && s'.runners == s.runners[h := Runner(NotStarted, false)]
          && s'.background == s.background[id := h])
    && s'.log == s.log && s'.phase == s.phase && s'.config == s.config
  }

  lemma CreateComesIn(s: State, r: Request)
    requires Sane(s) && Creates(s, r)
    ensures ComesIn(s, Submit(s, r), s.supply) && AsSubmitted(Submit(s, r).table[s.supply], r, s.config)
  {
    CreateIs(s, r);
    NewAsSubmitted(s, r);
    var s', h := Submit(s, r), Handle(s.supply, s.supply);
    assert s'.runners == s.runners[h := Runner(NotStarted, false)] && s'.background == s.background[s.supply := h];
    assert forall g :: g in s.runners ==> g.taskId in s.table;
  }

  lemma OnlySubmissionsAdd(s: State, l: Label, id: TaskId)
    requires Sane(s) && Enabled(s, l) && id !in s.table && id in Next(s, l).table
    ensures l.SubmitStep? && Creates(s, l.request) && id == s.supply
  {
    if l.SubmitStep? && Creates(s, l.request) {
      CreateIs(s, l.request);
    } else {
      Accounting.SameRows(s, l);
    }
  }

  lemma AppearsAsSubmitted(run: Run, i: nat, id: TaskId)
    requires IsRun(run) && Appears(run, i, id)
    ensures run.labels[i].SubmitStep? && ComesIn(run.states[i], run.states[i + 1], id)
    ensures AsSubmitted(run.states[i + 1].table[id], run.labels[i].request, run.states[i].config)
  {
    StepFacts(run, i);
    OnlySubmissionsAdd(run.states[i], run.labels[i], id);
    CreateComesIn(run.states[i], run.labels[i].request);
  }

  /**
   In every run a submission is accepted exactly when it is admissible and its key is new; then one task comes in,
   and otherwise nothing changes.
   */
  lemma AcceptedExactly(run: Run, i: nat)
    requires IsRun(run) && i < |run.labels| && run.labels[i].SubmitStep?
    ensures var s, s', r := run.states[i], run.states[i + 1], run.labels[i].request;
      if Admissible(s, r) && NewKey(s.table, r.key) then exists id :: ComesIn(s, s', id) else s' == s
  {
    var s, r := run.states[i], run.labels[i].request;
    StepFacts(run, i);
    AdmissibleExactly(s, r);
    if Creates(s, r) {
      CreateComesIn(s, r);
    }
  }

  /** In every run a record is, in every state, what the submission asked for in whose step it appeared. */
  lemma RecordAsSubmitted(run: Run, i: nat, n: nat, id: TaskId)
    requires IsRun(run) && Appears(run, i, id) && i < n < |run.states|
    ensures run.labels[i].SubmitStep? && id in run.states[n].table
    ensures AsSubmitted(run.states[n].table[id], run.labels[i].request, run.states[i].config)
  {
    AppearsAsSubmitted(run, i, id);
    TaskKept(run, i + 1, n, id);
    StillAsSubmitted(run.states[i + 1].table[id], run.states[n].table[id], run.labels[i].request, run.states[i].config);
  }

  lemma {:induction false} AppearedBefore(run: Run, n: nat, id: TaskId) returns (i: nat)
    requires IsRun(run) && n < |run.states| && id in run.states[n].table
    ensures i < n && Appears(run, i, id)
  {
    if n > 0 && id in run.states[n - 1].table {
      i := AppearedBefore(run, n - 1, id);
    } else {
      assert run.states[0].table == map[];
      i := n - 1;
    }
  }

  /** And every record comes from such a submission. */
  lemma EveryRecordWasSubmitted(run: Run, n: nat, id: TaskId) returns (i: nat)
    requires IsRun(run) && n < |run.states| && id in run.states[n].table
    ensures i < n && Appears(run, i, id) && run.labels[i].SubmitStep?
    ensures AsSubmitted(run.states[n].table[id], run.labels[i].request, run.states[i].config)
  {
    i := AppearedBefore(run, n, id);
    RecordAsSubmitted(run, i, n, id);
  }

  /** The request carries what this submission asked for under this configuration. */
  ghost predicate RequestAsSubmitted(d: Dispatch, request: Request, config: Config) {
    match request
    case Request(workerId, prompt, front, key, _) =>
      && d.workerId == workerId && d.prompt == prompt && d.idempotencyKey == key
      && workerId in config.workers && d.timeoutSeconds == config.workers[workerId].asyncSeconds
      && DirectoryFor(d.workingDirectory, front, config.workers[workerId].writePaths)
  }

  /** In every run every request ever sent carries what the submission of its task asked for. */
  lemma EveryRequestWasSubmitted(run: Run, n: nat, k: nat) returns (i: nat)
    requires IsRun(run) && n < |run.states| && k < |run.states[n].log|
    ensures i < n && Appears(run, i, run.states[n].log[k].taskId) && run.labels[i].SubmitStep?
    ensures RequestAsSubmitted(run.states[n].log[k], run.labels[i].request, run.states[i].config)
  {
    DispatchEntry(run, n, k);
    i := EveryRecordWasSubmitted(run, n, run.states[n].log[k].taskId);
  }

  // ----- The configuration in force -----

  /** The configuration of the last reload among these steps. */
  function LastReload(labels: seq<Label>, initial: Config): Config {
    if labels == [] then initial
    else
      match labels[|labels| - 1]
      case ReloadStep(config) => config
      case _ => LastReload(labels[..|labels| - 1], initial)
  }

  lemma StepKeepsConfig(s: State, l: Label)
    requires Sane(s) && Enabled(s, l) && !l.ReloadStep?
    ensures Next(s, l).config == s.config
  {
    if Own(l) {
      OwnStepSane(s, l);
    } else if l.CancelStep? {
      if l.taskId in s.table { CancelSane(s, l.taskId, l.now); }
    }
  }

  lemma ReloadSets(s: State, l: Label)
    requires l.ReloadStep?
    ensures Next(s, l).config == l.config
  {
  }

  lemma ConfigStays(run: Run, i: nat)
    requires IsRun(run) && i < |run.labels| && !run.labels[i].ReloadStep?
    ensures run.states[i + 1].config == run.states[i].config
  {
    StepFacts(run, i);
    StepKeepsConfig(run.states[i], run.labels[i]);
  }

  lemma ConfigReloads(run: Run, i: nat)
    requires IsRun(run) && i < |run.labels| && run.labels[i].ReloadStep?
    ensures run.states[i + 1].config == run.labels[i].config
  {
    StepFacts(run, i);
    ReloadSets(run.states[i], run.labels[i]);
  }

  /** In every run the configuration in force, with its limits and workers, is that of the last reload. */
  lemma {:induction false} ConfigInForce(run: Run, n: nat)
    requires IsRun(run) && n < |run.states|
    ensures run.states[n].config == LastReload(run.labels[..n], run.states[0].config)
  {
    if n > 0 {
      ConfigInForce(run, n - 1);
      var before := run.labels[..n];
      assert before[..n - 1] == run.labels[..n - 1] && before[n - 1] == run.labels[n - 1];
      if run.labels[n - 1].ReloadStep? {
        ConfigReloads(run, n - 1);
      } else {
        ConfigStays(run, n - 1);
      }
    }
  }

  // ----- Cancelling -----

  /** The task's registered coroutine is told to cancel, wherever it is, and no other. */
  ghost predicate TellsOnly(s: State, s': State, id: TaskId) {
    && s'.runners.Keys == s.runners.Keys && s'.background == s.background
    && forall h :: h in s.runners ==>
      s'.runners[h] == if id in s.background && s.background[id] == h then s.runners[h].(cancelRequested := true)
        else s.runners[h]
  }

  lemma RequestTells(s: State, id: TaskId)
    requires BackgroundOk(s.background, s.runners)
    ensures TellsOnly(s, RequestCancel(s, id), id)
  {
  }

  lemma CancelTells(s: State, id: TaskId, now: Time)
    requires Sane(s) && Open(s, id)
    ensures TellsOnly(s, Cancel(s, id, now), id)
  {
    assert RecordOk(id, s.table[id], s.supply);
    CancelIs(s, id, now);
    RequestTells(s, id);
  }

  lemma CancelSettles(s: State, id: TaskId, now: Time)
    requires Sane(s) && Open(s, id)
    ensures Settled(s, Cancel(s, id, now), id, Cancelled, Some(CANCELLED_BY_CALLER), None, now)
  {
    assert RecordOk(id, s.table[id], s.supply);
    CancelledRecord(s, id, now);
  }

  /**
   In every run a cancel of an open task makes its record Cancelled and tells its registered coroutine; of any other
   task, it changes nothing.
   */
  lemma CancelReaches(run: Run, i: nat)
    requires IsRun(run) && i < |run.labels| && run.labels[i].CancelStep?
    ensures Open(run.states[i], run.labels[i].taskId) ==>
      && TellsOnly(run.states[i], run.states[i + 1], run.labels[i].taskId)
      && Settled(run.states[i], run.states[i + 1], run.labels[i].taskId, Cancelled, Some("cancelled by caller"), None,
                 run.labels[i].now)
    ensures !Open(run.states[i], run.labels[i].taskId) ==> run.states[i + 1] == run.states[i]
  {
    StepFacts(run, i);
    if Open(run.states[i], run.labels[i].taskId) {
      CancelTells(run.states[i], run.labels[i].taskId, run.labels[i].now);
      CancelSettles(run.states[i], run.labels[i].taskId, run.labels[i].now);
    }
  }

  /** The task is over, and each of its coroutines has been told to cancel. */
  ghost predicate ToldOff(s: State, id: TaskId) {
    match Stored(s, id)
    case None => false
    case Some(r) => Terminal(r.state) && forall h :: h in s.runners && h.taskId == id ==> s.runners[h].cancelRequested
  }

  /** Such a coroutine can only end: before its first step, or interrupted where it is. */
  lemma ToldOffEnds(s: State, l: Label)
    requires Sane(s) && Enabled(s, l) && Own(l) && ToldOff(s, l.h.taskId)
    ensures l.FirstStep? || l.InterruptStep?
    ensures Next(s, l) == Finish(s, l.h)
  {
    assert l.h in s.runners && s.runners[l.h].cancelRequested;
  }

  lemma FinishToldOff(s: State, h: Handle)
    requires ToldOff(s, h.taskId)
    ensures ToldOff(Finish(s, h), h.taskId)
  {
  }

  lemma OtherToldOff(s: State, s': State, t: TaskId, id: TaskId)
    requires Within(s, s', t) && t != id && ToldOff(s, id)
    ensures ToldOff(s', id)
  {
    assert forall h :: h in s'.runners ==> h in s.runners.Keys;
  }

  lemma StartToldOff(s: State, now: Time, id: TaskId)
    requires Sane(s) && s.phase == Idle && ToldOff(s, id)
    ensures ToldOff(Start(s, now), id)
  {
    StartShape(s, now);
    OpenMeansRecoverable(s.table[id].state);
    OpenNotScheduled(s, now, id);
  }

  lemma CancelToldOff(s: State, t: TaskId, now: Time, id: TaskId)
    requires Sane(s) && ToldOff(s, id)
    ensures ToldOff(Cancel(s, t, now), id)
  {
    if t in s.table && t != id {
      CancelSane(s, t, now);
      OtherToldOff(s, Cancel(s, t, now), t, id);
    }
  }

  lemma SubmitToldOff(s: State, r: Request, id: TaskId)
    requires Sane(s) && ToldOff(s, id)
    ensures ToldOff(Submit(s, r), id)
  {
    if Creates(s, r) {
      CreateIs(s, r);
    }
  }

  lemma ControlToldOff(s: State, l: Label, id: TaskId)
    requires Enabled(s, l) && ToldOff(s, id)
    requires l.StopBeginStep? || l.StopEndStep? || l.CrashStep? || l.ReloadStep? || l.SwitchStoreStep?
    ensures ToldOff(Next(s, l), id)
  {
  }

  lemma StepToldOff(s: State, l: Label, id: TaskId)
    requires Sane(s) && Enabled(s, l) && ToldOff(s, id)
    ensures ToldOff(Next(s, l), id)
  {
    if Own(l) {
      if l.h.taskId == id {
        ToldOffEnds(s, l);
        FinishToldOff(s, l.h);
      } else {
        OwnStepSane(s, l);
        OtherToldOff(s, Next(s, l), l.h.taskId, id);
      }
    } else if l.SubmitStep? {
      SubmitToldOff(s, l.request, id);
    } else if l.CancelStep? {
      CancelToldOff(s, l.taskId, l.now, id);
    } else if l.StartStep? {
      if s.phase == Idle { StartToldOff(s, l.now, id); }
    } else {
      ControlToldOff(s, l, id);
    }
  }

  // ----- The request log -----

  /** Only sending adds to the log, and it adds the sender's own request, once. */
  lemma SendAdds(s: State, h: Handle)
    requires Sane(s) && Enabled(s, SendStep(h))
    ensures var s', task := Send(s, h), s.runners[h].pc.task;
      && s'.log == s.log + [DispatchOf(task, s.runners[h].pc.recoveryAttempt)] && task.taskId == h.taskId
      && h in s'.runners && s'.runners[h] == s.runners[h].(pc := s.runners[h].pc.(sent := true))
      && s'.table == s.table
  {
    OwnRecords(s, h.taskId);
  }

  lemma AttemptKeepsLog(s: State, h: Handle, task: TaskRecord, now: Time)
    requires h in s.runners
    ensures TakeAttempt(s, h, task, now).log == s.log
  {
  }

  lemma BodyKeepsLog(s: State, h: Handle, task: TaskRecord, front: Frontmatter, now: Time)
    requires h in s.runners && task.workingDirectory.Some?
    ensures Body(s, h, task, front, now).log == s.log
  {
    AttemptKeepsLog(s, h, task, now);
  }

  lemma FirstKeepsLog(s: State, h: Handle, front: Frontmatter, now: Time)
    requires Sane(s) && h in s.runners
    ensures First(s, h, front, now).log == s.log
  {
    OwnRecords(s, h.taskId);
    FirstIsOneOf(s, h, front, now);
    if Open(s, h.taskId) {
      AttemptKeepsLog(s, h, s.table[h.taskId], now);
    }
  }

  lemma ReceiveKeepsLog(s: State, h: Handle, reply: Reply, now: Time)
    requires h in s.runners
    ensures Receive(s, h, reply, now).log == s.log
  {
    if Open(s, h.taskId) {
      ReceiveIs(s, h, reply, now);
    }
  }

  lemma OwnKeepsLog(s: State, l: Label)
    requires Sane(s) && Enabled(s, l) && Own(l) && !l.SendStep?
    ensures Next(s, l).log == s.log
  {
    match l {
      case FirstStep(h, front, now) => FirstKeepsLog(s, h, front, now);
      case WakeStep(h, front, now) =>
        SleeperHolds(s, h);
        BodyKeepsLog(s, h, s.runners[h].pc.snapshot, front, now);
      case ReceiveStep(h, reply, now) => ReceiveKeepsLog(s, h, reply, now);
      case InterruptStep(h, now) =>
    }
  }

  lemma ControlKeepsLog(s: State, l: Label)
    requires Enabled(s, l) && !Own(l) && !l.CancelStep?
    ensures Next(s, l).log == s.log
  {
  }

  lemma OnlySendsAdd(s: State, l: Label)
    requires Sane(s) && Enabled(s, l) && !l.SendStep?
    ensures Next(s, l).log == s.log
  {
    if Own(l) {
      OwnKeepsLog(s, l);
    } else if l.CancelStep? {
      if l.taskId in s.table {
        assert RecordOk(l.taskId, s.table[l.taskId], s.supply);
        CancelIs(s, l.taskId, l.now);
      }
    } else {
      ControlKeepsLog(s, l);
    }
  }

  /**
   In every run the log grows in the sending steps only, each by one request: the sender's, with the number and id of
   the attempt that it works on and the flag of a recovery; and it sends no second one for that attempt.
   */
  lemma LogGrowsBySending(run: Run, i: nat)
    requires IsRun(run) && i < |run.labels|
    ensures var s, s', l := run.states[i], run.states[i + 1], run.labels[i];
      if l.SendStep? then
        && l.h in s.runners && s.runners[l.h].pc.Calling? && !s.runners[l.h].pc.sent
        && |s'.log| == |s.log| + 1 && s'.log[..|s.log|] == s.log && s'.table == s.table
        && var d, pc := s'.log[|s.log|], s.runners[l.h].pc;
           && d.taskId == l.h.taskId && d.attemptId == pc.task.dispatchAttemptId
           && d.attemptNumber == pc.task.attemptCount && d.recoveryAttempt == pc.recoveryAttempt
           && l.h in s'.runners && s'.runners[l.h] == s.runners[l.h].(pc := pc.(sent := true))
      else s'.log == s.log
  {
    StepFacts(run, i);
    if run.labels[i].SendStep? {
      SendAdds(run.states[i], run.labels[i].h);
    } else {
      OnlySendsAdd(run.states[i], run.labels[i]);
    }
  }

  lemma SendsAppend(log: seq<Dispatch>, d: Dispatch, id: TaskId)
    ensures Sends(log + [d], id) == Sends(log, id) + (if d.taskId == id then 1 else 0)
  {
    assert (log + [d])[..|log|] == log;
  }

  lemma ToldOffSendsNothing(s: State, l: Label, id: TaskId)
    requires Sane(s) && Enabled(s, l) && ToldOff(s, id)
    ensures Sends(Next(s, l).log, id) == Sends(s.log, id)
  {
    if l.SendStep? {
      SendAdds(s, l.h);
      SendsAppend(s.log, DispatchOf(s.runners[l.h].pc.task, s.runners[l.h].pc.recoveryAttempt), id);
      assert l.h.taskId != id;
    } else {
      OnlySendsAdd(s, l);
    }
  }

  // ----- After a cancel -----

  /** A task whose coroutines are all registered is told off by a cancel. */
  lemma CancelTellsOff(s: State, id: TaskId, now: Time)
    requires Sane(s) && Open(s, id) && Attended(s, id, false)
    ensures ToldOff(Cancel(s, id, now), id)
  {
    CancelTells(s, id, now);
    CancelAdvances(s, id, now);
    var s' := Cancel(s, id, now);
    forall h | h in s'.runners && h.taskId == id ensures s'.runners[h].cancelRequested {
      assert h in s.runners.Keys;
    }
  }

  lemma ToldOffStep(run: Run, i: nat, id: TaskId)
    requires IsRun(run) && i < |run.labels| && ToldOff(run.states[i], id)
    ensures ToldOff(run.states[i + 1], id) && Sends(run.states[i + 1].log, id) == Sends(run.states[i].log, id)
  {
    StepFacts(run, i);
    StepToldOff(run.states[i], run.labels[i], id);
    ToldOffSendsNothing(run.states[i], run.labels[i], id);
  }

  lemma {:induction false} StaysToldOff(run: Run, i: nat, j: nat, id: TaskId)
    requires IsRun(run) && i <= j < |run.states| && ToldOff(run.states[i], id)
    ensures ToldOff(run.states[j], id) && Sends(run.states[j].log, id) == Sends(run.states[i].log, id)
    decreases j
  {
    if i < j {
      StaysToldOff(run, i, j - 1, id);
      ToldOffStep(run, j - 1, id);
    }
  }

  /**
   After a caller's cancel of an open task whose own submission found no stop waiting, no request for it is sent any
   more, every coroutine of it has been told, and such a coroutine can only end: in its first step, or interrupted.
   */
  lemma CancelStopsTheWork(run: Run, i: nat, j: nat)
    requires i < |run.labels| && i < j < |run.states| && run.labels[i].CancelStep?
    requires TimelyFor(run, run.labels[i].taskId, false) && Open(run.states[i], run.labels[i].taskId)
    ensures var id := run.labels[i].taskId;
      && Sends(run.states[j].log, id) == Sends(run.states[i].log, id)
      && (forall h :: h in run.states[j].runners && h.taskId == id ==> run.states[j].runners[h].cancelRequested)
      && (j < |run.labels| && Own(run.labels[j]) && run.labels[j].h.taskId == id ==>
        (run.labels[j].FirstStep? || run.labels[j].InterruptStep?) && run.labels[j].h !in run.states[j + 1].runners)
  {
    var s, id, now := run.states[i], run.labels[i].taskId, run.labels[i].now;
    StepFacts(run, i);
    TimelyAttended(run, i, id, false);
    CancelTellsOff(s, id, now);
    OnlySendsAdd(s, run.labels[i]);
    StaysToldOff(run, i + 1, j, id);
    if j < |run.labels| && Own(run.labels[j]) && run.labels[j].h.taskId == id {
      StepFacts(run, j);
      ToldOffEnds(run.states[j], run.labels[j]);
    }
  }

  // ----- Taking an attempt -----

  /** An attempt id that nothing seen so far carries: no record, and no request ever sent. */
  ghost predicate Unseen(s: State, attempt: AttemptId) {
    && (forall id :: id in s.table ==> s.table[id].dispatchAttemptId != Some(attempt))
    && (forall k :: 0 <= k < |s.log| ==> s.log[k].attemptId != Some(attempt))
  }

  /**
   The coroutine takes the next attempt on this version of its record: the record is Running under a new attempt id and
   one more attempt, and the coroutine is in the worker call with exactly this record. Nothing else changes.
   */
  ghost predicate TakesAttempt(s: State, s': State, h: Handle, from: TaskRecord, now: Time)
    requires h in s.runners
  {
    && h.taskId in s'.table
    && var r := s'.table[h.taskId];
       && r.dispatchAttemptId.Some? && Unseen(s, r.dispatchAttemptId.value)
       && r == from.(state := Running, attemptCount := from.attemptCount + 1, dispatchAttemptId := r.dispatchAttemptId,
                     updatedAt := now, startedAt := if from.startedAt.Some? then from.startedAt else Some(now))
       && s' == s.(table := s.table[h.taskId := r], supply := s'.supply,
                   runners := s.runners[h := s.runners[h].(pc := Calling(r, from.state == Recovering, false))])
  }

  lemma SupplyUnseen(s: State)
    requires TableOk(s.table, s.supply) && LogOk(s.log, s.table, s.supply)
    ensures Unseen(s, s.supply)
  {
    forall id | id in s.table ensures s.table[id].dispatchAttemptId != Some(s.supply) {
      assert RecordOk(id, s.table[id], s.supply);
    }
    forall k | 0 <= k < |s.log| ensures s.log[k].attemptId != Some(s.supply) {
      assert EntryOk(s.log[k], s.table, s.supply);
    }
  }

  lemma AttemptedIs(task: TaskRecord, attemptId: AttemptId, now: Time)
    requires task.state == Pending || task.state == Recovering
    ensures Attempted(task, attemptId, now)
      == task.(state := Running, attemptCount := task.attemptCount + 1, dispatchAttemptId := Some(attemptId),
               updatedAt := now, startedAt := if task.startedAt.Some? then task.startedAt else Some(now))
  {
  }

  lemma TakenTakes(s: State, h: Handle, task: TaskRecord, now: Time)
    requires TableOk(s.table, s.supply) && LogOk(s.log, s.table, s.supply) && Takeable(s, h, task)
    ensures TakesAttempt(s, Taken(s, h, task, now), h, task, now)
  {
    SupplyUnseen(s);
    AttemptedIs(task, s.supply, now);
  }

  lemma AttemptTakes(s: State, h: Handle, task: TaskRecord, now: Time)
    requires Sane(s) && Takeable(s, h, task)
    ensures TakesAttempt(s, TakeAttempt(s, h, task, now), h, task, now)
  {
    TakeAttemptIs(s, h, task, now);
    TakenTakes(s, h, task, now);
  }

  /** The coroutine is gone, and its id is no longer registered; nobody else's is touched, and nothing is sent. */
  ghost predicate EndsHere(s: State, s': State, h: Handle) {
    s'.runners == s.runners - {h} && s'.background == s.background - {h.taskId} && s'.log == s.log
    && s'.phase == s.phase && s'.config == s.config
  }

  /** The first step of a coroutine, told by what it finds. */
  ghost predicate Starts(s: State, s': State, h: Handle, now: Time)
    requires h in s.runners && h.taskId in s.table
  {
    var r := s.table[h.taskId];
    if s.runners[h].cancelRequested || Terminal(r.state) then EndsHere(s, s', h) && s'.table == s.table
    else if r.state == Running then
      s' == s.(runners := s.runners[h := s.runners[h].(pc := Calling(r, false, false))])
    else if r.state == Recovering && s.config.recovery.delaySeconds != 0.0 then
      s' == s.(runners := s.runners[h := s.runners[h].(pc := Sleeping(r))])
    else
      TakesAttempt(s, s', h, r, now)
  }

  lemma FirstTakes(s: State, h: Handle, now: Time)
    requires Sane(s) && h in s.runners && Open(s, h.taskId) && s.table[h.taskId].state != Running
    ensures TakesAttempt(s, TakeAttempt(s, h, s.table[h.taskId], now), h, s.table[h.taskId], now)
  {
    OwnRecords(s, h.taskId);
    AttemptTakes(s, h, s.table[h.taskId], now);
  }

  lemma FirstGoesOn(s: State, h: Handle, front: Frontmatter, now: Time)
    requires Sane(s) && h in s.runners && Open(s, h.taskId) && !s.runners[h].cancelRequested
    ensures First(s, h, front, now)
      == if s.config.recovery.delaySeconds != 0.0 && s.table[h.taskId].state == Recovering
         then SetPc(s, h, Sleeping(s.table[h.taskId])) else TakeAttempt(s, h, s.table[h.taskId], now)
  {
    OwnRecords(s, h.taskId);
    FirstIsOneOf(s, h, front, now);
  }

  lemma FirstStarts(s: State, h: Handle, front: Frontmatter, now: Time)
    requires Sane(s) && h in s.runners && h.taskId in s.table
    ensures Starts(s, First(s, h, front, now), h, now)
  {
    if Open(s, h.taskId) && !s.runners[h].cancelRequested {
      FirstGoesOn(s, h, front, now);
      if s.table[h.taskId].state != Running {
        FirstTakes(s, h, now);
      }
    }
  }

  /**
   In every run a coroutine's first step ends it when it was told or its task is over; otherwise it joins the attempt of
   a Running record, sleeps on a Recovering one if there is a delay, or takes an attempt on the record as stored.
   */
  lemma FirstStepStarts(run: Run, i: nat)
    requires IsRun(run) && i < |run.labels| && run.labels[i].FirstStep?
    ensures run.labels[i].h in run.states[i].runners && run.labels[i].h.taskId in run.states[i].table
    ensures Starts(run.states[i], run.states[i + 1], run.labels[i].h, run.labels[i].now)
  {
    StepFacts(run, i);
    FirstStarts(run.states[i], run.labels[i].h, run.labels[i].front, run.labels[i].now);
  }

  lemma WakeTakes(s: State, h: Handle, front: Frontmatter, now: Time)
    requires Sane(s) && h in s.runners && s.runners[h].pc.Sleeping?
    ensures TakesAttempt(s, Body(s, h, s.runners[h].pc.snapshot, front, now), h, s.runners[h].pc.snapshot, now)
  {
    SleeperHolds(s, h);
    BodyAttempts(s, h, s.runners[h].pc.snapshot, front, now);
    AttemptTakes(s, h, s.runners[h].pc.snapshot, now);
  }

  /**
   In every run a sleeper that wakes takes an attempt on the Recovering record it went to sleep on; for a ready task
   that is the record as stored.
   */
  lemma WakeStepTakes(run: Run, i: nat)
    requires IsRun(run) && i < |run.labels| && run.labels[i].WakeStep?
    ensures run.labels[i].h in run.states[i].runners && run.states[i].runners[run.labels[i].h].pc.Sleeping?
    ensures var s, h := run.states[i], run.labels[i].h; var snapshot := s.runners[h].pc.snapshot;
      && snapshot.state == Recovering && snapshot.taskId == h.taskId
      && TakesAttempt(s, run.states[i + 1], h, snapshot, run.labels[i].now)
      && (OrderlyFor(run, h.taskId, false) ==> h.taskId in s.table && s.table[h.taskId] == snapshot)
  {
    var s, l := run.states[i], run.labels[i];
    StepFacts(run, i);
    SleeperHolds(s, l.h);
    WakeTakes(s, l.h, l.front, l.now);
    if OrderlyFor(run, l.h.taskId, false) {
      RunInv(run, i, l.h.taskId, false);
      WakeIs(s, l.h, l.front, l.now, false);
    }
  }

  // ----- Ending -----

  lemma SettleEndsHere(s: State, h: Handle, target: TaskState, error: Option<string>, result: Option<Payload>,
                       now: Time)
    requires h in s.runners && h.taskId in s.table && s.table[h.taskId].taskId == h.taskId
    ensures EndsHere(s, Finish(SettleAs(s, h.taskId, target, error, result, now), h), h)
  {
    SettleIs(s, h.taskId, target, error, result, now);
  }

  lemma ReceiveEndsHere(s: State, h: Handle, reply: Reply, now: Time)
    requires Sane(s) && h in s.runners
    ensures EndsHere(s, Receive(s, h, reply, now), h)
  {
    OwnRecords(s, h.taskId);
    if Open(s, h.taskId) {
      ReceiveIs(s, h, reply, now);
      var failure := ReplyFailure(s.table[h.taskId], reply);
      if failure.Some? {
        SettleEndsHere(s, h, FailureTarget(failure.value), Some(FailureMessage(failure.value)), None, now);
      } else {
        SettleEndsHere(s, h, Completed, None, Some(reply.result), now);
      }
    }
  }

  /** In every run a reply, a failure or an interruption ends the coroutine and unregisters its id. */
  lemma EndsItsCoroutine(run: Run, i: nat)
    requires IsRun(run) && i < |run.labels| && (run.labels[i].ReceiveStep? || run.labels[i].InterruptStep?)
    ensures EndsHere(run.states[i], run.states[i + 1], run.labels[i].h)
  {
    var s, l := run.states[i], run.labels[i];
    StepFacts(run, i);
    if l.ReceiveStep? {
      ReceiveEndsHere(s, l.h, l.reply, l.now);
    } else {
      OwnRecords(s, l.h.taskId);
      SettleEndsHere(s, l.h, Cancelled, Some(BACKGROUND_CANCELLED), None, l.now);
    }
  }

  // ----- What a reply leaves -----

  /** The message that the handlers store: the exception's own text, or a name for it when it has none. */
  function StoredMessage(r: TaskRecord, reply: Reply): string {
    match reply
    case Returned(_) => "cannot transition " + StateName(r.state) + " -> Completed"
    case Threw(Timeout(text)) => if text == "" then "worker timed out" else text
    case Threw(Raised(text, className)) => if text == "" then className else text
  }

  /**
   An open record after a reply: Completed with the result if it was Running; otherwise TimedOut or Failed with the
   message, if it was Running, or Recovering and the message asks for Failed; else as it was, and the message is lost.
   */
  ghost predicate AsReplied(r: TaskRecord, r': TaskRecord, reply: Reply, now: Time) {
    if reply.Returned? && r.state == Running then
      r' == r.(state := Completed, result := Some(reply.result), updatedAt := now, completedAt := Some(now))
    else
      var message := StoredMessage(r, reply);
      var target := if (reply.Threw? && reply.failure.Timeout?) || MentionsTimeout(message) then TimedOut else Failed;
      if r.state == Running || (r.state == Recovering && target == Failed) then
        r' == r.(state := target, error := Some(message), updatedAt := now, completedAt := Some(now))
      else r' == r
  }

  lemma OutcomeIs(r: TaskRecord, target: TaskState, error: Option<string>, result: Option<Payload>, now: Time)
    requires !Terminal(r.state) && Verdict(target, error, result)
    ensures Outcome(r, target, error, result, now)
      == if target !in AllowedTransitions(r.state) then r
         else if target == Completed then
           r.(state := target, result := result, updatedAt := now, completedAt := Some(now))
         else r.(state := target, error := error, updatedAt := now, completedAt := Some(now))
  {
  }

  lemma FailureOutcome(r: TaskRecord, reply: Reply, now: Time)
    requires !Terminal(r.state) && r.state != Retrying && ReplyFailure(r, reply).Some?
    ensures var failure := ReplyFailure(r, reply).value;
      AsReplied(r, Outcome(r, FailureTarget(failure), Some(FailureMessage(failure)), None, now), reply, now)
  {
    var failure := ReplyFailure(r, reply).value;
    assert FailureMessage(failure) == StoredMessage(r, reply);
    OutcomeIs(r, FailureTarget(failure), Some(FailureMessage(failure)), None, now);
  }

  lemma SuccessOutcome(r: TaskRecord, reply: Reply, now: Time)
    requires !Terminal(r.state) && ReplyFailure(r, reply).None?
    ensures reply.Returned? && AsReplied(r, Outcome(r, Completed, None, Some(reply.result), now), reply, now)
  {
    OutcomeIs(r, Completed, None, Some(reply.result), now);
  }

  lemma ReplyAsReplied(s: State, h: Handle, reply: Reply, now: Time)
    requires h in s.runners && Open(s, h.taskId) && RecordOk(h.taskId, s.table[h.taskId], s.supply)
    ensures var s' := Receive(s, h, reply, now);
      h.taskId in s'.table && AsReplied(s.table[h.taskId], s'.table[h.taskId], reply, now)
  {
    var r := s.table[h.taskId];
    ReceiveIs(s, h, reply, now);
    var failure := ReplyFailure(r, reply);
    if failure.Some? {
      SettleFinishIs(s, h, FailureTarget(failure.value), Some(FailureMessage(failure.value)), None, now);
      FailureOutcome(r, reply, now);
    } else {
      SettleFinishIs(s, h, Completed, None, Some(reply.result), now);
      SuccessOutcome(r, reply, now);
    }
  }

  /** In every run a reply is recorded as `AsReplied` says, and one for a task already over leaves the table alone. */
  lemma EveryReplyRecorded(run: Run, i: nat)
    requires IsRun(run) && i < |run.labels| && run.labels[i].ReceiveStep?
    ensures var s, s', l := run.states[i], run.states[i + 1], run.labels[i];
      && l.h.taskId in s.table && l.h.taskId in s'.table
      && if Terminal(s.table[l.h.taskId].state) then s'.table == s.table && s'.counters == s.counters
         else AsReplied(s.table[l.h.taskId], s'.table[l.h.taskId], l.reply, l.now)
  {
    var s, l := run.states[i], run.labels[i];
    StepFacts(run, i);
    OwnRecords(s, l.h.taskId);
    if Open(s, l.h.taskId) {
      ReplyAsReplied(s, l.h, l.reply, l.now);
    } else {
      ReceiveLate(s, l.h, l.reply, l.now);
    }
  }

  const REFUSED_COMPLETION := "cannot transition Recovering -> Completed"

  lemma TimeoutLetters(text: string, i: nat)
    requires i <= |text| && TimeoutAt(text, i)
    ensures ToLower(text[i]) == 't' && ToLower(text[i + 2]) == 'm'
  {
    var word := Lowered(text[i..i + 7]);
    assert word[0] == 't' && word[2] == 'm';
  }

  lemma NoTimeoutAt(i: nat)
    requires i + 7 <= |REFUSED_COMPLETION|
    ensures !TimeoutAt(REFUSED_COMPLETION, i)
  {
    if TimeoutAt(REFUSED_COMPLETION, i) {
      TimeoutLetters(REFUSED_COMPLETION, i);
    }
  }

  lemma NoTimeoutMentioned()
    ensures !MentionsTimeout(REFUSED_COMPLETION)
  {
    forall i: nat | i + 7 <= |REFUSED_COMPLETION| ensures !TimeoutAt(REFUSED_COMPLETION, i) {
      NoTimeoutAt(i);
    }
  }

  lemma RecoveringReplied(r: TaskRecord, r': TaskRecord, reply: Reply, now: Time)
    requires r.state == Recovering && reply.Returned? && AsReplied(r, r', reply, now)
    ensures r' == r.(state := Failed, error := Some(REFUSED_COMPLETION), updatedAt := now, completedAt := Some(now))
  {
    assert StoredMessage(r, reply) == REFUSED_COMPLETION;
    NoTimeoutMentioned();
  }

  /** In every run an answer for a task that was made Recovering under its coroutine is lost, and the task Failed. */
  lemma RecoveringAnswerFails(run: Run, i: nat)
    requires IsRun(run) && i < |run.labels| && run.labels[i].ReceiveStep? && run.labels[i].reply.Returned?
    requires run.labels[i].h.taskId in run.states[i].table
      && run.states[i].table[run.labels[i].h.taskId].state == Recovering
    ensures var id, now := run.labels[i].h.taskId, run.labels[i].now;
      && id in run.states[i + 1].table
      && run.states[i + 1].table[id] == run.states[i].table[id].(state := Failed,
        error := Some("cannot transition Recovering -> Completed"), updatedAt := now, completedAt := Some(now))
  {
    EveryReplyRecorded(run, i);
    var id := run.labels[i].h.taskId;
    RecoveringReplied(run.states[i].table[id], run.states[i + 1].table[id], run.labels[i].reply, run.labels[i].now);
  }

  // ----- Restarting and stopping -----

  /** A restart replays the task: it waits still, or was interrupted and the policy in force replays its key. */
  predicate ReplayedBy(policy: RecoveryPolicy, r: TaskRecord) {
    r.state == Pending
    || (!Terminal(r.state)
      && (policy == Always
        || (policy == Idempotent && r.idempotencyKey.Some? && r.idempotencyKey.value != "")))
  }

  /** Its coroutine is registered and alive. */
  predicate Attending(s: State, id: TaskId) {
    id in s.background && s.background[id] in s.runners
  }

  /** What a start makes of the row: Recovering with no attempt in hand, unless it waits or is over. */
  ghost predicate Recovered(r: TaskRecord, r': TaskRecord, now: Time) {
    r' == if Terminal(r.state) || r.state == Pending then r
          else r.(state := Recovering, updatedAt := now, dispatchAttemptId := None)
  }

  /** A new coroutine of the task, the only new one, registered and not yet begun. */
  ghost predicate Rescheduled(s: State, s': State, id: TaskId) {
    && id in s'.background && s'.background[id].taskId == id && s'.background[id] !in s.runners
    && s'.background[id] in s'.runners && s'.runners[s'.background[id]] == Runner(NotStarted, false)
    && forall h :: h in s'.runners && h.taskId == id && h !in s.runners ==> h == s'.background[id]
  }

  ghost predicate LeftAlone(s: State, s': State, id: TaskId) {
    && (id in s'.background <==> id in s.background) && (id in s.background ==> s'.background[id] == s.background[id])
    && forall h :: h in s'.runners && h.taskId == id ==> h in s.runners
  }

  lemma MarkedRecovered(r: TaskRecord, now: Time)
    ensures Recovered(r, Marked(r, now), now)
  {
    OpenMeansRecoverable(r.state);
  }

  lemma ScheduledExactly(s: State, now: Time, id: TaskId)
    requires id in s.table
    ensures id in ToSchedule(s, MarkRecovering(s.table, now))
      <==> ReplayedBy(s.config.recovery.policy, s.table[id]) && !Attending(s, id)
    ensures id in Deferred(s, MarkRecovering(s.table, now))
      <==> !Terminal(s.table[id].state) && !ReplayedBy(s.config.recovery.policy, s.table[id])
  {
    MarkedRecovered(s.table[id], now);
    assert MarkRecovering(s.table, now)[id] == Marked(s.table[id], now);
  }

  lemma StartReschedules(s: State, s': State, ids: set<TaskId>, id: TaskId)
    requires Joined(s.runners, s'.runners, ids, s.supply) && Registered(s.background, s'.background, ids, s.supply)
    ensures if id in ids then Rescheduled(s, s', id) else LeftAlone(s, s', id)
  {
  }

  lemma StartRestarts(s: State, now: Time, id: TaskId)
    requires Sane(s) && s.phase == Idle && id in s.table
    ensures var s' := Start(s, now);
      && id in s'.table && Recovered(s.table[id], s'.table[id], now) && s'.phase == Serving && s'.log == s.log
      && (forall h :: h in s.runners ==> h in s'.runners && s'.runners[h] == s.runners[h])
      && (if ReplayedBy(s.config.recovery.policy, s.table[id]) && !Attending(s, id) then Rescheduled(s, s', id)
          else LeftAlone(s, s', id))
      && (id in s'.deferred
        <==> !Terminal(s.table[id].state) && !ReplayedBy(s.config.recovery.policy, s.table[id]))
  {
    StartShape(s, now);
    MarkedRecovered(s.table[id], now);
    ScheduledExactly(s, now, id);
    StartReschedules(s, Start(s, now), ToSchedule(s, MarkRecovering(s.table, now)), id);
  }

  /**
   In every run a start from idle makes every interrupted row Recovering and gives a new coroutine to exactly the rows
   that the policy replays and nobody attends to; the other interrupted ones are deferred, and no coroutine is
   disturbed. On a manager that is started it changes nothing.
   */
  lemma RestartReplays(run: Run, i: nat, id: TaskId)
    requires IsRun(run) && i < |run.labels| && run.labels[i].StartStep? && id in run.states[i].table
    ensures var s, s', now := run.states[i], run.states[i + 1], run.labels[i].now;
      if s.phase != Idle then s' == s
      else
        && id in s'.table && Recovered(s.table[id], s'.table[id], now) && s'.phase == Serving && s'.log == s.log
        && (forall h :: h in s.runners ==> h in s'.runners && s'.runners[h] == s.runners[h])
        && (if ReplayedBy(s.config.recovery.policy, s.table[id]) && !Attending(s, id) then Rescheduled(s, s', id)
            else LeftAlone(s, s', id))
        && (id in s'.deferred
          <==> !Terminal(s.table[id].state) && !ReplayedBy(s.config.recovery.policy, s.table[id]))
  {
    StepFacts(run, i);
    if run.states[i].phase == Idle {
      StartRestarts(run.states[i], run.labels[i].now, id);
    }
  }

  /** Every registered coroutine is told to cancel, and no other. */
  ghost predicate TellsAll(s: State, s': State) {
    && s'.runners.Keys == s.runners.Keys
    && forall h :: h in s.runners ==>
      s'.runners[h] == if h.taskId in s.background && s.background[h.taskId] == h
        then s.runners[h].(cancelRequested := true) else s.runners[h]
  }

  lemma FlaggedTellsAll(s: State)
    requires BackgroundOk(s.background, s.runners)
    ensures TellsAll(s, s.(runners := Flagged(s.runners, BackgroundHandles(s))))
    ensures forall h :: h in BackgroundHandles(s) <==> h.taskId in s.background && s.background[h.taskId] == h
  {
  }

  lemma StopTells(s: State)
    requires Sane(s) && s.phase == Serving
    ensures var s' := StopBegin(s);
      && s'.table == s.table && s'.log == s.log
      && (if s.background == map[] then s'.phase == Idle && s'.runners == s.runners
          else
            && s'.phase.Stopping? && TellsAll(s, s') && s'.background == s.background
            && forall h :: h in s'.phase.waiting <==> h.taskId in s.background && s.background[h.taskId] == h)
  {
    FlaggedTellsAll(s);
    BackgroundIsHandled(s);
    if BackgroundHandles(s) == {} {
      NobodyRegistered(s);
    }
  }

  /** In every run a stop tells exactly the registered coroutines, waits for exactly them, and writes nothing. */
  lemma StopTellsEveryone(run: Run, i: nat)
    requires IsRun(run) && i < |run.labels| && run.labels[i].StopBeginStep? && run.states[i].phase == Serving
    ensures var s, s' := run.states[i], run.states[i + 1];
      && s'.table == s.table && s'.log == s.log
      && (if s.background == map[] then s'.phase == Idle && s'.runners == s.runners
          else
            && s'.phase.Stopping? && TellsAll(s, s') && s'.background == s.background
            && forall h :: h in s'.phase.waiting <==> h.taskId in s.background && s.background[h.taskId] == h)
  {
    StepFacts(run, i);
    StopTells(run.states[i]);
  }

  lemma SwitchForgets(s: State)
    requires Sane(s)
    ensures SwitchStore(s) == if s.phase == Serving && s.background == map[] then s.(phase := Idle) else s
  {
    if ActiveIds(s) == {} {
      NobodyRegistered(s);
    } else {
      assert s.background != map[];
    }
  }

  /**
   In every run: a stop that returns forgets what is registered; the end of the process loses coroutines and counters
   but no record and no request; a reload replaces the configuration, and one that names another store ends this manager
   only if nothing is registered. Nothing else changes in these steps.
   */
  lemma WhatIsForgotten(run: Run, i: nat)
    requires IsRun(run) && i < |run.labels|
    ensures var s, s' := run.states[i], run.states[i + 1];
      match run.labels[i]
      case StopEndStep => s.phase.Stopping? && s' == s.(background := map[], phase := Idle)
      case StopBeginStep => s.phase != Serving ==> s' == s
      case SwitchStoreStep => s' == if s.phase == Serving && s.background == map[] then s.(phase := Idle) else s
      case CrashStep =>
        && s'.runners == map[] && s'.background == map[] && s'.phase == Idle && s'.counters == Counters(map[], map[])
        && s'.table == s.table && s'.log == s.log && s'.config == s.config
      case ReloadStep(config) => s' == s.(config := config)
      case _ => true
  {
    StepFacts(run, i);
    if run.labels[i].SwitchStoreStep? {
      SwitchForgets(run.states[i]);
    }
  }

  // ----- Attempts are counted -----

  lemma SettleKeepsCount(s: State, h: Handle, target: TaskState, error: Option<string>, result: Option<Payload>,
                         now: Time)
    requires h in s.runners && h.taskId in s.table && s.table[h.taskId].taskId == h.taskId
    ensures var s' := Finish(SettleAs(s, h.taskId, target, error, result, now), h);
      h.taskId in s'.table && s'.table[h.taskId].attemptCount == s.table[h.taskId].attemptCount
  {
    SettleFinishIs(s, h, target, error, result, now);
    OutcomeAdvances(s.table[h.taskId], target, error, result, now);
  }

  lemma ReceiveKeepsCount(s: State, h: Handle, reply: Reply, now: Time)
    requires h in s.runners && h.taskId in s.table && s.table[h.taskId].taskId == h.taskId
    ensures h.taskId in Receive(s, h, reply, now).table
    ensures Receive(s, h, reply, now).table[h.taskId].attemptCount == s.table[h.taskId].attemptCount
  {
    if Open(s, h.taskId) {
      ReceiveIs(s, h, reply, now);
      var failure := ReplyFailure(s.table[h.taskId], reply);
      if failure.Some? {
        SettleKeepsCount(s, h, FailureTarget(failure.value), Some(FailureMessage(failure.value)), None, now);
      } else {
        SettleKeepsCount(s, h, Completed, None, Some(reply.result), now);
      }
    }
  }

  lemma EndKeepsCount(s: State, l: Label)
    requires Sane(s) && Enabled(s, l) && (l.SendStep? || l.ReceiveStep? || l.InterruptStep?) && l.h.taskId in s.table
    ensures l.h.taskId in Next(s, l).table
    ensures Next(s, l).table[l.h.taskId].attemptCount == s.table[l.h.taskId].attemptCount
  {
    OwnRecords(s, l.h.taskId);
    match l {
      case SendStep(h) => SendAdds(s, h);
      case ReceiveStep(h, reply, now) => ReceiveKeepsCount(s, h, reply, now);
      case InterruptStep(h, now) => SettleKeepsCount(s, h, Cancelled, Some(BACKGROUND_CANCELLED), None, now);
    }
  }

  predicate MayTake(l: Label, id: TaskId) {
    (l.FirstStep? || l.WakeStep?) && l.h.taskId == id
  }

  lemma OthersKeepCount(s: State, l: Label, id: TaskId)
    requires Sane(s) && Enabled(s, l) && id in s.table && !MayTake(l, id)
    ensures id in Next(s, l).table && Next(s, l).table[id].attemptCount == s.table[id].attemptCount
  {
    if Own(l) {
      OwnStepSane(s, l);
      if l.h.taskId == id { EndKeepsCount(s, l); }
    } else if l.CancelStep? {
      if l.taskId in s.table {
        CancelSane(s, l.taskId, l.now);
        CancelAdvances(s, l.taskId, l.now);
      }
    } else if l.StartStep? {
      assert RecordOk(id, s.table[id], s.supply);
      MarkedOk(id, s.table[id], l.now, s.supply);
    } else {
      ControlKeepsTask(s, l, id);
    }
  }

  /** Step i takes an attempt: a coroutine of the task enters the worker call over a record that was not Running. */
  ghost predicate TakesAt(run: Run, i: nat, id: TaskId)
    requires i < |run.labels| && |run.states| == |run.labels| + 1
  {
    var s, s', l := run.states[i], run.states[i + 1], run.labels[i];
    && MayTake(l, id) && id in s.table && s.table[id].state != Running
    && l.h in s'.runners && s'.runners[l.h].pc.Calling?
  }

  ghost function AttemptsTaken(run: Run, n: nat, id: TaskId): nat
    requires n < |run.states| == |run.labels| + 1
  {
    if n == 0 then 0 else AttemptsTaken(run, n - 1, id) + (if TakesAt(run, n - 1, id) then 1 else 0)
  }

  lemma CountAt(run: Run, i: nat, id: TaskId)
    requires OrderlyFor(run, id, false) && i < |run.labels| && id in run.states[i].table
    ensures id in run.states[i + 1].table
    ensures run.states[i + 1].table[id].attemptCount
      == run.states[i].table[id].attemptCount + (if TakesAt(run, i, id) then 1 else 0)
  {
    StepFacts(run, i);
    if !MayTake(run.labels[i], id) {
      OthersKeepCount(run.states[i], run.labels[i], id);
    } else if run.labels[i].FirstStep? {
      FirstStepStarts(run, i);
    } else {
      WakeStepTakes(run, i);
    }
  }

  /** A ready task's attempt count is the number of attempts that its coroutines have taken. */
  lemma {:induction false} AttemptsAreCounted(run: Run, n: nat, id: TaskId)
    requires OrderlyFor(run, id, false) && n < |run.states|
    ensures (if id in run.states[n].table then run.states[n].table[id].attemptCount else 0) == AttemptsTaken(run, n, id)
  {
    if n > 0 {
      AttemptsAreCounted(run, n - 1, id);
      if id in run.states[n - 1].table {
        CountAt(run, n - 1, id);
      } else if id in run.states[n].table {
        AppearsAsSubmitted(run, n - 1, id);
      }
    } else {
      assert run.states[0].table == map[];
    }
  }

  // ----- Legacy rows that can be dispatched -----

  lemma FilledTakes(s: State, h: Handle, task: TaskRecord, now: Time)
    requires h in s.runners && h.taskId in s.table && s.table[h.taskId] == task && task.taskId == h.taskId
    requires KeysUnique(s.table) && (task.state == Pending || task.state == Recovering)
    ensures TakeAttempt(s, h, task, now) == Taken(s, h, task, now)
  {
    var r := Attempted(task, s.supply, now);
    AttemptedIs(task, s.supply, now);
    PutSameKeyNeverConflicts(s.table, r);
    PutIsUpdate(s.table, h.taskId, r);
  }

  /** The row with its directory, as the coroutine stores it before it takes its attempt. */
  lemma BodyFills(s: State, h: Handle, front: Frontmatter, now: Time) returns (filled: TaskRecord)
    requires h in s.runners && h.taskId in s.table && s.table[h.taskId].taskId == h.taskId
    requires s.table[h.taskId].workingDirectory.None? && KeysUnique(s.table)
    requires PreDispatchMessage(s.config, s.table[h.taskId], front).None?
    ensures s.table[h.taskId].workerId in s.config.workers
    ensures filled == s.table[h.taskId].(workingDirectory := filled.workingDirectory)
      && DirectoryFor(filled.workingDirectory, front, s.config.workers[filled.workerId].writePaths)
    ensures Write(s, filled) == s.(table := s.table[h.taskId := filled])
    ensures KeysUnique(Write(s, filled).table)
    ensures Body(s, h, s.table[h.taskId], front, now) == TakeAttempt(Write(s, filled), h, filled, now)
  {
    var r := s.table[h.taskId];
    ResolvedIsDispatchable(front, s.config.workers[r.workerId].writePaths);
    filled := r.(workingDirectory := Some(ResolveDirectory(front, s.config.workers[r.workerId].writePaths).value));
    PutIsUpdate(s.table, h.taskId, filled);
    PutSameKeyNeverConflicts(s.table, filled);
  }

  /**
   A row without a directory, from an older store, whose prompt resolves again: it gets the normal form of the declared
   directory, which its worker's write list admits, and its coroutine takes an attempt on it.
   */
  lemma LegacyRowResumes(s: State, h: Handle, front: Frontmatter, now: Time)
    requires h in s.runners && h.taskId in s.table && s.table[h.taskId].taskId == h.taskId
    requires s.table[h.taskId].workingDirectory.None? && s.table[h.taskId].state in {Pending, Recovering}
    requires KeysUnique(s.table) && PreDispatchMessage(s.config, s.table[h.taskId], front).None?
    ensures s.table[h.taskId].workerId in s.config.workers
    ensures var r, s' := s.table[h.taskId], Body(s, h, s.table[h.taskId], front, now);
      && h.taskId in s'.table && h in s'.runners
      && var r' := s'.table[h.taskId];
         && r'.state == Running && r'.attemptCount == r.attemptCount + 1 && r'.dispatchAttemptId == Some(s.supply)
         && DirectoryFor(r'.workingDirectory, front, s.config.workers[r.workerId].writePaths)
         && SameTask(r'.(workingDirectory := None), r)
         && s'.runners[h].pc == Calling(r', r.state == Recovering, false)
  {
    var filled := BodyFills(s, h, front, now);
    AttemptedIs(filled, s.supply, now);
    FilledTakes(Write(s, filled), h, filled, now);
  }
}
