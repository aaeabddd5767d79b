/** What the counters and the limits say about the table: conservation of tasks, and capacity. */
module Accounting {
  import opened Wrappers
  import opened TaskStates
  import opened TaskTable
  import opened Counting
  import opened PathPolicy
  import opened Protocol
  import opened Invariant
  import opened TaskLife
  import opened Theorems

  // ----- What is counted -----

  /** The worker's records. */
  function RowIds(table: Table, worker: WorkerId): set<TaskId> {
    set id | id in table && table[id].workerId == worker
  }

  function RowCount(table: Table, worker: WorkerId): nat {
    |RowIds(table, worker)|
  }

  function OpenCount(table: Table, worker: WorkerId): nat {
    CountByStates(table, RECOVERABLE_STATES, Some(worker))
  }

  /** The worker's records in one state. */
  function InState(table: Table, worker: WorkerId, state: TaskState): nat {
    CountByStates(table, {state}, Some(worker))
  }

  function CompletedCount(counters: Counters, worker: WorkerId): nat {
    Count(counters.completed, (worker, Completed)) + Count(counters.completed, (worker, Failed))
    + Count(counters.completed, (worker, Cancelled)) + Count(counters.completed, (worker, TimedOut))
  }

  /**
   By how much the counter of a terminal state exceeds what the table has gained in that state since the process began.
   */
  function Excess(s: State, worker: WorkerId, state: TaskState): int {
    Count(s.counters.completed, (worker, state)) + InState(s.boot, worker, state) - InState(s.table, worker, state)
  }

  /** The same for the counter of created tasks and the worker's records. */
  function CreatedExcess(s: State, worker: WorkerId): int {
    Count(s.counters.created, (worker, Async)) + RowCount(s.boot, worker) - RowCount(s.table, worker)
  }

  function Indicator(b: bool): int {
    if b then 1 else 0
  }

  predicate IsIn(r: TaskRecord, worker: WorkerId, state: TaskState) {
    r.workerId == worker && r.state == state
  }

  // ----- One row -----

  lemma Removed(ids: set<TaskId>, id: TaskId)
    ensures |ids - {id}| == |ids| - Indicator(id in ids)
  {
    if id !in ids {
      assert ids - {id} == ids;
    }
  }

  lemma Replaced(before: set<TaskId>, after: set<TaskId>, id: TaskId)
    requires after - {id} == before - {id}
    ensures |after| == |before| - Indicator(id in before) + Indicator(id in after)
  {
    Removed(before, id);
    Removed(after, id);
  }

  lemma RowMoves(table: Table, id: TaskId, r: TaskRecord, worker: WorkerId, state: TaskState)
    requires id in table && r.workerId == table[id].workerId
    ensures InState(table[id := r], worker, state)
      == InState(table, worker, state) - Indicator(IsIn(table[id], worker, state)) + Indicator(IsIn(r, worker, state))
  {
    Replaced(IdsIn(table, {state}, Some(worker)), IdsIn(table[id := r], {state}, Some(worker)), id);
  }

  lemma BumpedCounts(completed: map<(WorkerId, TaskState), nat>, r: TaskRecord, worker: WorkerId, state: TaskState)
    ensures Count(Bumped(completed, (r.workerId, r.state)), (worker, state))
      == Count(completed, (worker, state)) + Indicator(IsIn(r, worker, state))
  {
  }

  /** Settling a record counts it in the state that it moves to, and an open record was counted in none. */
  lemma SettleExcess(s: State, id: TaskId, target: TaskState, error: Option<string>, result: Option<Payload>, now: Time,
                     worker: WorkerId, state: TaskState)
    requires id in s.table && s.table[id].taskId == id && Terminal(target) && Terminal(state)
    ensures Excess(SettleAs(s, id, target, error, result, now), worker, state) == Excess(s, worker, state)
  {
    var r := Outcome(s.table[id], target, error, result, now);
    SettleIs(s, id, target, error, result, now);
    RowMoves(s.table, id, r, worker, state);
    BumpedCounts(s.counters.completed, r, worker, state);
  }

  /** Taking an attempt moves a record out of the state it was in. */
  lemma TakenExcess(s: State, h: Handle, task: TaskRecord, now: Time, worker: WorkerId, state: TaskState)
    requires Takeable(s, h, task) && Terminal(state)
    ensures Excess(Taken(s, h, task, now), worker, state)
      == Excess(s, worker, state) + Indicator(IsIn(s.table[h.taskId], worker, state))
  {
    AttemptedOk(h.taskId, task, s.supply, now);
    RowMoves(s.table, h.taskId, Attempted(task, s.supply, now), worker, state);
  }

  lemma AttemptExcess(s: State, h: Handle, task: TaskRecord, now: Time, worker: WorkerId, state: TaskState)
    requires TableOk(s.table, s.supply) && Takeable(s, h, task) && Terminal(state)
    ensures Excess(TakeAttempt(s, h, task, now), worker, state)
      == Excess(s, worker, state) + Indicator(IsIn(s.table[h.taskId], worker, state))
  {
    TakeAttemptIs(s, h, task, now);
    TakenExcess(s, h, task, now, worker, state);
  }

  // ----- Step by step -----

  /** A sleeper of this worker's wakes over a record that is over, in this state, and takes an attempt on it. */
  predicate Reopening(s: State, l: Label, worker: WorkerId, state: TaskState) {
    l.WakeStep? && l.h.taskId in s.table && IsIn(s.table[l.h.taskId], worker, state) && Terminal(state)
  }

  lemma RunningAttemptExcess(s: State, h: Handle, now: Time, worker: WorkerId, state: TaskState)
    requires h in s.runners && h.taskId in s.table && s.table[h.taskId].state == Running
    ensures Excess(TakeAttempt(s, h, s.table[h.taskId], now), worker, state) == Excess(s, worker, state)
  {
  }

  lemma StoredAttemptExcess(s: State, h: Handle, now: Time, worker: WorkerId, state: TaskState)
    requires TableOk(s.table, s.supply) && h in s.runners && Open(s, h.taskId) && Terminal(state)
    ensures Excess(TakeAttempt(s, h, s.table[h.taskId], now), worker, state) == Excess(s, worker, state)
  {
    assert RecordOk(h.taskId, s.table[h.taskId], s.supply);
    if s.table[h.taskId].state == Running {
      RunningAttemptExcess(s, h, now, worker, state);
    } else {
      AttemptExcess(s, h, s.table[h.taskId], now, worker, state);
    }
  }

  lemma FirstAttemptExcess(s: State, h: Handle, now: Time, worker: WorkerId, state: TaskState)
    requires Sane(s) && h in s.runners && Terminal(state)
    ensures h.taskId in s.table && s.table[h.taskId].workingDirectory.Some?
    ensures Open(s, h.taskId) ==>
      Excess(TakeAttempt(s, h, s.table[h.taskId], now), worker, state) == Excess(s, worker, state)
  {
    OwnRecords(s, h.taskId);
    if Open(s, h.taskId) {
      StoredAttemptExcess(s, h, now, worker, state);
    }
  }

  lemma FirstExcess(s: State, h: Handle, front: Frontmatter, now: Time, worker: WorkerId, state: TaskState)
    requires Sane(s) && h in s.runners && Terminal(state)
    ensures Excess(First(s, h, front, now), worker, state) == Excess(s, worker, state)
  {
    FirstAttemptExcess(s, h, now, worker, state);
    FirstIsOneOf(s, h, front, now);
  }

  lemma ReceiveExcess(s: State, h: Handle, reply: Reply, now: Time, worker: WorkerId, state: TaskState)
    requires h in s.runners && h.taskId in s.table && s.table[h.taskId].taskId == h.taskId && Terminal(state)
    ensures Excess(Receive(s, h, reply, now), worker, state) == Excess(s, worker, state)
  {
    if Open(s, h.taskId) {
      ReceiveIs(s, h, reply, now);
      var failure := ReplyFailure(s.table[h.taskId], reply);
      if failure.Some? {
        SettleExcess(s, h.taskId, FailureTarget(failure.value), Some(FailureMessage(failure.value)), None, now, worker,
          state);
      } else {
        SettleExcess(s, h.taskId, Completed, None, Some(reply.result), now, worker, state);
      }
    }
  }

  lemma SleeperAttemptExcess(s: State, h: Handle, now: Time, worker: WorkerId, state: TaskState)
    requires Sane(s) && h in s.runners && s.runners[h].pc.Sleeping? && Terminal(state)
    ensures s.runners[h].pc.snapshot.workingDirectory.Some? && h.taskId in s.table
    ensures Excess(TakeAttempt(s, h, s.runners[h].pc.snapshot, now), worker, state)
      == Excess(s, worker, state) + Indicator(IsIn(s.table[h.taskId], worker, state))
  {
    SleeperHolds(s, h);
    AttemptExcess(s, h, s.runners[h].pc.snapshot, now, worker, state);
  }

  lemma WakeExcess(s: State, h: Handle, front: Frontmatter, now: Time, worker: WorkerId, state: TaskState)
    requires Sane(s) && h in s.runners && s.runners[h].pc.Sleeping? && Terminal(state)
    ensures Excess(Body(s, h, s.runners[h].pc.snapshot, front, now), worker, state)
      == Excess(s, worker, state) + Indicator(Reopening(s, WakeStep(h, front, now), worker, state))
  {
    SleeperAttemptExcess(s, h, now, worker, state);
    BodyAttempts(s, h, s.runners[h].pc.snapshot, front, now);
  }

  lemma OwnStepExcess(s: State, l: Label, worker: WorkerId, state: TaskState)
    requires Sane(s) && Enabled(s, l) && Own(l) && Terminal(state)
    ensures Excess(Next(s, l), worker, state) == Excess(s, worker, state) + Indicator(Reopening(s, l, worker, state))
  {
    OwnRecords(s, l.h.taskId);
    match l {
      case FirstStep(h, front, now) => FirstExcess(s, h, front, now, worker, state);
      case WakeStep(h, front, now) => WakeExcess(s, h, front, now, worker, state);
      case SendStep(h) =>
      case ReceiveStep(h, reply, now) => ReceiveExcess(s, h, reply, now, worker, state);
      case InterruptStep(h, now) => SettleExcess(s, h.taskId, Cancelled, Some(BACKGROUND_CANCELLED), None, now, worker,
        state);
    }
  }

  lemma NewcomerInState(table: Table, id: TaskId, task: TaskRecord, worker: WorkerId, state: TaskState)
    requires id !in table && task.state != state
    ensures InState(table[id := task], worker, state) == InState(table, worker, state)
  {
    assert IdsIn(table[id := task], {state}, Some(worker)) == IdsIn(table, {state}, Some(worker));
  }

  lemma SubmitExcess(s: State, r: Request, worker: WorkerId, state: TaskState)
    requires Sane(s) && Terminal(state)
    ensures Excess(Submit(s, r), worker, state) == Excess(s, worker, state)
  {
    if Creates(s, r) {
      CreateIs(s, r);
      NewcomerInState(s.table, s.supply, NewRecord(s, r, Admission(s, r).value), worker, state);
    }
  }

  lemma MarkedInState(table: Table, now: Time, worker: WorkerId, state: TaskState)
    requires Terminal(state)
    ensures InState(MarkRecovering(table, now), worker, state) == InState(table, worker, state)
  {
    assert IdsIn(MarkRecovering(table, now), {state}, Some(worker)) == IdsIn(table, {state}, Some(worker));
  }

  lemma StartExcess(s: State, now: Time, worker: WorkerId, state: TaskState)
    requires Terminal(state)
    ensures Excess(Start(s, now), worker, state) == Excess(s, worker, state)
  {
    MarkedInState(s.table, now, worker, state);
  }

  lemma CancelExcess(s: State, id: TaskId, now: Time, worker: WorkerId, state: TaskState)
    requires Sane(s) && Terminal(state)
    ensures Excess(Cancel(s, id, now), worker, state) == Excess(s, worker, state)
  {
    if id in s.table {
      assert RecordOk(id, s.table[id], s.supply);
      SettleExcess(RequestCancel(s, id), id, Cancelled, Some(CANCELLED_BY_CALLER), None, now, worker, state);
    }
  }

  lemma ControlExcess(s: State, l: Label, worker: WorkerId, state: TaskState)
    requires Enabled(s, l) && (l.StopBeginStep? || l.StopEndStep? || l.ReloadStep? || l.SwitchStoreStep?)
    ensures Excess(Next(s, l), worker, state) == Excess(s, worker, state)
  {
  }

  /**
   In every sane state each step but a crash moves the counter of a terminal state by what the table gains in
   that state, submissions included; only a wake-up over a record in that state takes one away uncounted.
   */
  lemma StepExcess(s: State, l: Label, worker: WorkerId, state: TaskState)
    requires Sane(s) && Enabled(s, l) && !l.CrashStep? && Terminal(state)
    ensures Excess(Next(s, l), worker, state) == Excess(s, worker, state) + Indicator(Reopening(s, l, worker, state))
  {
    if Own(l) {
      OwnStepExcess(s, l, worker, state);
    } else if l.SubmitStep? {
      SubmitExcess(s, l.request, worker, state);
    } else if l.CancelStep? {
      CancelExcess(s, l.taskId, l.now, worker, state);
    } else if l.StartStep? {
      StartExcess(s, l.now, worker, state);
    } else {
      ControlExcess(s, l, worker, state);
    }
  }

  // ----- Created tasks -----

  lemma RowKept(s: State, s': State, id: TaskId)
    requires Within(s, s', id)
    ensures s'.table.Keys == s.table.Keys
  {
  }

  lemma ControlKeepsRows(s: State, l: Label)
    requires Enabled(s, l) && !Own(l) && !l.CancelStep? && !(l.SubmitStep? && Creates(s, l.request))
    ensures Next(s, l).table.Keys == s.table.Keys
  {
  }

  lemma SameRows(s: State, l: Label)
    requires Sane(s) && Enabled(s, l) && !(l.SubmitStep? && Creates(s, l.request))
    ensures Next(s, l).table.Keys == s.table.Keys
  {
    if Own(l) {
      OwnStepSane(s, l);
      RowKept(s, Next(s, l), l.h.taskId);
    } else if l.CancelStep? {
      if l.taskId in s.table {
        CancelSane(s, l.taskId, l.now);
        RowKept(s, Next(s, l), l.taskId);
      }
    } else {
      ControlKeepsRows(s, l);
    }
  }

  lemma ControlKeepsCreated(s: State, l: Label)
    requires Enabled(s, l)
    requires l.StartStep? || l.StopBeginStep? || l.StopEndStep? || l.ReloadStep? || l.SwitchStoreStep?
    ensures Next(s, l).counters.created == s.counters.created && Next(s, l).boot == s.boot
  {
  }

  lemma CreatedOnlyBySubmit(s: State, l: Label)
    requires Sane(s) && Enabled(s, l) && !l.CrashStep? && !(l.SubmitStep? && Creates(s, l.request))
    ensures Next(s, l).counters.created == s.counters.created && Next(s, l).boot == s.boot
  {
    if Own(l) {
      OwnStepSane(s, l);
    } else if l.CancelStep? {
      if l.taskId in s.table { CancelSane(s, l.taskId, l.now); }
    } else if !l.SubmitStep? {
      ControlKeepsCreated(s, l);
    }
  }

  lemma SameWorkers(table: Table, table': Table, worker: WorkerId)
    requires table'.Keys == table.Keys && forall id :: id in table ==> table'[id].workerId == table[id].workerId
    ensures RowCount(table', worker) == RowCount(table, worker)
  {
    assert RowIds(table', worker) == RowIds(table, worker);
  }

  lemma OneMoreRow(table: Table, id: TaskId, task: TaskRecord, worker: WorkerId)
    requires id !in table
    ensures RowCount(table[id := task], worker) == RowCount(table, worker) + Indicator(task.workerId == worker)
  {
    assert RowIds(table[id := task], worker) == RowIds(table, worker) + (if task.workerId == worker then {id} else {});
  }

  lemma SubmitCreated(s: State, r: Request, worker: WorkerId)
    requires Sane(s) && Creates(s, r)
    ensures CreatedExcess(Submit(s, r), worker) == CreatedExcess(s, worker)
  {
    CreateIs(s, r);
    OneMoreRow(s.table, s.supply, NewRecord(s, r, Admission(s, r).value), worker);
  }

  lemma WorkersKept(s: State, l: Label)
    requires Sane(s) && Enabled(s, l) && !(l.SubmitStep? && Creates(s, l.request))
    ensures Next(s, l).table.Keys == s.table.Keys && forall id :: id in s.table ==>
      Next(s, l).table[id].workerId == s.table[id].workerId
  {
    SameRows(s, l);
    forall id | id in s.table ensures Next(s, l).table[id].workerId == s.table[id].workerId {
      StepKeepsTask(s, l, id);
    }
  }

  lemma StepCreated(s: State, l: Label, worker: WorkerId)
    requires Sane(s) && Enabled(s, l) && !l.CrashStep?
    ensures CreatedExcess(Next(s, l), worker) == CreatedExcess(s, worker)
  {
    if l.SubmitStep? && Creates(s, l.request) {
      SubmitCreated(s, l.request, worker);
    } else {
      WorkersKept(s, l);
      CreatedOnlyBySubmit(s, l);
      SameWorkers(s.table, Next(s, l).table, worker);
    }
  }

  // ----- Conservation over runs -----

  lemma CrashExcess(s: State, worker: WorkerId, state: TaskState)
    ensures Excess(Crash(s), worker, state) == 0 && CreatedExcess(Crash(s), worker) == 0
  {
  }

  /** In every run tasks created by this process are the worker's records gained since it began. */
  lemma {:induction false} CreatedMeansStored(run: Run, n: nat, worker: WorkerId)
    requires IsRun(run) && n < |run.states|
    ensures CreatedExcess(run.states[n], worker) == 0
  {
    if n > 0 {
      CreatedMeansStored(run, n - 1, worker);
      StepFacts(run, n - 1);
      if run.labels[n - 1].CrashStep? {
        CrashExcess(run.states[n - 1], worker, Completed);
      } else {
        StepCreated(run.states[n - 1], run.labels[n - 1], worker);
      }
    } else {
      assert run.states[0].table == run.states[0].boot == map[];
    }
  }

  /** Every start up to now has found every task of this worker ready. */
  ghost predicate WorkerOrderly(run: Run, n: nat, worker: WorkerId)
    requires n < |run.states|
  {
    forall id :: id in run.states[n].table && run.states[n].table[id].workerId == worker ==> OrderlyFor(run, id, false)
  }

  lemma WorkerOrderlyBefore(run: Run, n: nat, worker: WorkerId)
    requires IsRun(run) && 0 < n < |run.states| && WorkerOrderly(run, n, worker)
    ensures WorkerOrderly(run, n - 1, worker)
  {
    forall id | id in run.states[n - 1].table && run.states[n - 1].table[id].workerId == worker
      ensures OrderlyFor(run, id, false) {
      TaskKept(run, n - 1, n, id);
    }
  }

  ghost predicate SubmitsFor(run: Run, i: nat, worker: WorkerId)
    requires |run.states| == |run.labels| + 1 && i < |run.labels|
  {
    run.labels[i].SubmitStep? && Creates(run.states[i], run.labels[i].request)
      && run.labels[i].request.workerId == worker
  }

  /** No submission for this worker is accepted while a stop waits. */
  ghost predicate NoneWhileStopping(run: Run, worker: WorkerId) {
    IsRun(run) && forall i :: 0 <= i < |run.labels| && SubmitsFor(run, i, worker) ==> !run.states[i].phase.Stopping?
  }

  /** The submission that created a record names its worker. */
  lemma CreatedForWorker(run: Run, i: nat, n: nat, id: TaskId)
    requires IsRun(run) && n < |run.states| && CreatedAt(run, i, id) && id in run.states[n].table
    ensures run.labels[i].request.workerId == run.states[n].table[id].workerId
  {
    StepFacts(run, i);
    CreateIs(run.states[i], run.labels[i].request);
    if i < n {
      TaskKept(run, i + 1, n, id);
    } else {
      TaskKept(run, n, i, id);
    }
  }

  /** Then every start finds every task of this worker ready. */
  lemma NoneWhileStoppingIsOrderly(run: Run, n: nat, worker: WorkerId)
    requires NoneWhileStopping(run, worker) && n < |run.states|
    ensures WorkerOrderly(run, n, worker)
  {
    forall id | id in run.states[n].table && run.states[n].table[id].workerId == worker
      ensures OrderlyFor(run, id, false) {
      forall i | 0 <= i < |run.labels| && CreatedAt(run, i, id) ensures Timely(run.states[i].phase, false) {
        CreatedForWorker(run, i, n, id);
        assert SubmitsFor(run, i, worker);
      }
      TimelyIsOrderly(run, id, false);
    }
  }

  lemma SleepsOverOpen(s: State, h: Handle)
    requires Sane(s) && TaskInv(s, h.taskId, false) && h in s.runners && s.runners[h].pc.Sleeping?
      && !s.runners[h].cancelRequested
    ensures h.taskId in s.table && !Terminal(s.table[h.taskId].state)
  {
    OwnParts(s, h, false);
  }

  /** A sleeper of a task found ready wakes over the record that it went to sleep on. */
  lemma NeverReopening(run: Run, i: nat, worker: WorkerId, state: TaskState)
    requires IsRun(run) && i < |run.labels| && WorkerOrderly(run, i, worker)
    ensures !Reopening(run.states[i], run.labels[i], worker, state)
  {
    var s, l := run.states[i], run.labels[i];
    StepFacts(run, i);
    if l.WakeStep? && l.h.taskId in s.table && s.table[l.h.taskId].workerId == worker {
      RunInv(run, i, l.h.taskId, false);
      SleepsOverOpen(s, l.h);
    }
  }

  /**
   For a worker all of whose tasks every start has found ready: the counter of each terminal state is the
   number of its records in that state now, less those when the process began.
   */
  lemma {:induction false} StateConservation(run: Run, n: nat, worker: WorkerId, state: TaskState)
    requires IsRun(run) && n < |run.states| && WorkerOrderly(run, n, worker) && Terminal(state)
    ensures var s := run.states[n];
      Count(s.counters.completed, (worker, state)) == InState(s.table, worker, state) - InState(s.boot, worker, state)
  {
    if n > 0 {
      WorkerOrderlyBefore(run, n, worker);
      StateConservation(run, n - 1, worker, state);
      StepFacts(run, n - 1);
      if run.labels[n - 1].CrashStep? {
        CrashExcess(run.states[n - 1], worker, state);
      } else {
        NeverReopening(run, n - 1, worker, state);
        StepExcess(run.states[n - 1], run.labels[n - 1], worker, state);
      }
    } else {
      assert run.states[0].table == run.states[0].boot == map[];
    }
  }

  lemma DisjointSizes(whole: set<TaskId>, a: set<TaskId>, b: set<TaskId>, c: set<TaskId>, d: set<TaskId>,
                      e: set<TaskId>)
    requires whole == a + b + c + d + e && a !! b && a + b !! c && a + b + c !! d && a + b + c + d !! e
    ensures |whole| == |a| + |b| + |c| + |d| + |e|
  {
  }

  /** A worker's records are the open ones and those in the four terminal states. */
  lemma RowsSplit(table: Table, worker: WorkerId)
    ensures RowCount(table, worker)
      == OpenCount(table, worker) + InState(table, worker, Completed) + InState(table, worker, Failed)
         + InState(table, worker, Cancelled) + InState(table, worker, TimedOut)
  {
    var w := Some(worker);
    var open := IdsIn(table, RECOVERABLE_STATES, w);
    var completed, failed := IdsIn(table, {Completed}, w), IdsIn(table, {Failed}, w);
    var cancelled, timedOut := IdsIn(table, {Cancelled}, w), IdsIn(table, {TimedOut}, w);
    forall id | id in RowIds(table, worker) ensures id in open + completed + failed + cancelled + timedOut {
      OpenMeansRecoverable(table[id].state);
    }
    DisjointSizes(RowIds(table, worker), open, completed, failed, cancelled, timedOut);
  }

  /**
   So tasks created by this process plus tasks open when it began equal tasks it completed, over all terminal states,
   plus tasks open now.
   */
  lemma MetricConservation(run: Run, n: nat, worker: WorkerId)
    requires IsRun(run) && n < |run.states| && WorkerOrderly(run, n, worker)
    ensures var s := run.states[n];
      Count(s.counters.created, (worker, Async)) + OpenCount(s.boot, worker)
        == CompletedCount(s.counters, worker) + OpenCount(s.table, worker)
  {
    StateConservation(run, n, worker, Completed);
    StateConservation(run, n, worker, Failed);
    StateConservation(run, n, worker, Cancelled);
    StateConservation(run, n, worker, TimedOut);
    CreatedMeansStored(run, n, worker);
    RowsSplit(run.states[n].table, worker);
    RowsSplit(run.states[n].boot, worker);
  }

  lemma BootKept(s: State, l: Label)
    requires Sane(s) && Enabled(s, l) && !l.CrashStep?
    ensures Next(s, l).boot == s.boot
  {
    if !(l.SubmitStep? && Creates(s, l.request)) {
      CreatedOnlyBySubmit(s, l);
    }
  }

  /**
   In every run, each step but a crash adds to the counter of a terminal state exactly what the worker's records
   gain in that state, if and only if it does not reopen one of them.
   */
  lemma CountedExactlyOnce(run: Run, i: nat, worker: WorkerId, state: TaskState)
    requires IsRun(run) && i < |run.labels| && !run.labels[i].CrashStep? && Terminal(state)
    ensures var s, s' := run.states[i], run.states[i + 1];
      Count(s'.counters.completed, (worker, state)) - Count(s.counters.completed, (worker, state))
        == InState(s'.table, worker, state) - InState(s.table, worker, state)
      <==> !Reopening(s, run.labels[i], worker, state)
  {
    StepFacts(run, i);
    StepExcess(run.states[i], run.labels[i], worker, state);
    BootKept(run.states[i], run.labels[i]);
  }

  // ----- Capacity -----

  function OpenIds(table: Table): set<TaskId> {
    IdsIn(table, RECOVERABLE_STATES, None)
  }

  lemma AdmittedIsUnsaturated(s: State, r: Request)
    requires Admission(s, r).Ok?
    ensures CountByStates(s.table, QUEUED_STATES, None) < s.config.limits.globalPendingTasks
    ensures CountByStates(s.table, QUEUED_STATES, Some(r.workerId)) < s.config.limits.perWorkerPendingTasks
    ensures |ActiveIds(s)| < s.config.limits.globalActiveTasks
  {
    assert Saturation(s, r.workerId).None?;
  }

  /** Every Running record has a registered coroutine: so it is, while started, for tasks found ready. */
  ghost predicate RunningRegistered(s: State) {
    forall id :: id in s.table && s.table[id].state == Running ==> id in s.background
  }

  lemma OpenIsQueuedOrActive(s: State)
    requires Sane(s) && RunningRegistered(s)
    ensures OpenIds(s.table) <= IdsIn(s.table, QUEUED_STATES, None) + ActiveIds(s)
  {
    forall id | id in OpenIds(s.table) ensures id in IdsIn(s.table, QUEUED_STATES, None) + ActiveIds(s) {
      assert RecordOk(id, s.table[id], s.supply);
    }
  }

  lemma {:induction false} SubsetSize(small: set<TaskId>, large: set<TaskId>)
    requires small <= large
    ensures |small| <= |large|
  {
    assert large == small + (large - small);
    assert |large| == |small| + |large - small|;
  }

  lemma UnionSize(left: set<TaskId>, right: set<TaskId>)
    ensures |left + right| <= |left| + |right|
  {
    assert left + right == left + (right - left);
    SubsetSize(right - left, right);
  }

  /** An admitted submission finds the queues below their limits and at most pending + active - 2 open records. */
  lemma AdmissionLeavesRoom(s: State, r: Request)
    requires Sane(s) && RunningRegistered(s) && Admission(s, r).Ok?
    ensures CountByStates(s.table, QUEUED_STATES, None) < s.config.limits.globalPendingTasks
    ensures CountByStates(s.table, QUEUED_STATES, Some(r.workerId)) < s.config.limits.perWorkerPendingTasks
    ensures |OpenIds(s.table)| <= s.config.limits.globalPendingTasks + s.config.limits.globalActiveTasks - 2
  {
    AdmittedIsUnsaturated(s, r);
    var queued, active := IdsIn(s.table, QUEUED_STATES, None), ActiveIds(s);
    OpenIsQueuedOrActive(s);
    SubsetSize(OpenIds(s.table), queued + active);
    UnionSize(queued, active);
  }

  lemma AddPending(table: Table, id: TaskId, r: TaskRecord, states: set<TaskState>, worker: Option<WorkerId>)
    requires id !in table && r.state in states && (worker.Some? ==> r.workerId == worker.value)
    ensures IdsIn(table[id := r], states, worker) == IdsIn(table, states, worker) + {id}
    ensures |IdsIn(table[id := r], states, worker)| == |IdsIn(table, states, worker)| + 1
  {
    assert IdsIn(table[id := r], states, worker) == IdsIn(table, states, worker) + {id};
  }

  lemma CreateAddsOne(s: State, r: Request)
    requires Sane(s) && Creates(s, r)
    ensures |OpenIds(Submit(s, r).table)| == |OpenIds(s.table)| + 1
  {
    CreateIs(s, r);
    AddPending(s.table, s.supply, NewRecord(s, r, Admission(s, r).value), RECOVERABLE_STATES, None);
  }

  /** In every run an accepted submission leaves the queue within the global and the worker's pending limit. */
  lemma QueueWithinLimits(run: Run, i: nat)
    requires IsRun(run) && i < |run.labels| && run.labels[i].SubmitStep?
      && Creates(run.states[i], run.labels[i].request)
    ensures var s, s', r := run.states[i], run.states[i + 1], run.labels[i].request;
      && CountByStates(s'.table, QUEUED_STATES, None) <= s.config.limits.globalPendingTasks
      && CountByStates(s'.table, QUEUED_STATES, Some(r.workerId)) <= s.config.limits.perWorkerPendingTasks
  {
    var s, r := run.states[i], run.labels[i].request;
    StepFacts(run, i);
    AdmittedIsUnsaturated(s, r);
    CreateIs(s, r);
    var task := NewRecord(s, r, Admission(s, r).value);
    AddPending(s.table, s.supply, task, QUEUED_STATES, None);
    AddPending(s.table, s.supply, task, QUEUED_STATES, Some(r.workerId));
  }

  // ----- Capacity over runs -----

  /** Every start finds every task ready. */
  ghost predicate AllOrderly(run: Run) {
    IsRun(run) && forall id :: OrderlyFor(run, id, false)
  }

  /** Submissions are accepted only while the manager is started: serving, or with a stop waiting. */
  ghost predicate StartedWhenAccepting(run: Run) {
    IsRun(run) && forall i :: 0 <= i < |run.labels| && run.labels[i].SubmitStep? && Creates(run.states[i], run.labels[i].request) ==>
      run.states[i].phase != Idle
  }

  ghost predicate FixedLimits(run: Run, limits: Limits) {
    forall i :: 0 <= i < |run.states| ==> run.states[i].config.limits == limits
  }

  lemma StartedIsRegistered(run: Run, i: nat)
    requires AllOrderly(run) && i < |run.states| && run.states[i].phase != Idle
    ensures RunningRegistered(run.states[i])
  {
    forall id | id in run.states[i].table && run.states[i].table[id].state == Running
      ensures id in run.states[i].background {
      assert OrderlyFor(run, id, false);
      RunInv(run, i, id, false);
    }
  }

  lemma OpenNeverGrows(run: Run, i: nat)
    requires AllOrderly(run) && i < |run.labels|
    requires run.states[i + 1].table.Keys == run.states[i].table.Keys
    ensures |OpenIds(run.states[i + 1].table)| <= |OpenIds(run.states[i].table)|
  {
    var s, s' := run.states[i], run.states[i + 1];
    forall id | id in OpenIds(s'.table) ensures id in OpenIds(s.table) {
      assert OrderlyFor(run, id, false);
      FrozenStep(run, i, id);
      OpenMeansRecoverable(s.table[id].state);
      OpenMeansRecoverable(s'.table[id].state);
    }
    SubsetSize(OpenIds(s'.table), OpenIds(s.table));
  }

  lemma CapacityNext(run: Run, i: nat, limits: Limits)
    requires AllOrderly(run) && StartedWhenAccepting(run) && FixedLimits(run, limits) && i < |run.labels|
    requires |OpenIds(run.states[i].table)| <= limits.globalPendingTasks + limits.globalActiveTasks - 1
    ensures |OpenIds(run.states[i + 1].table)| <= limits.globalPendingTasks + limits.globalActiveTasks - 1
  {
    var s, l := run.states[i], run.labels[i];
    StepFacts(run, i);
    if l.SubmitStep? && Creates(s, l.request) {
      StartedIsRegistered(run, i);
      AdmissionLeavesRoom(s, l.request);
      CreateAddsOne(s, l.request);
    } else {
      SameRows(s, l);
      OpenNeverGrows(run, i);
    }
  }

  /**
   Under fixed limits, from an empty store and over any number of crashes and restarts that find the
   tasks ready, open records never exceed the pending limit plus the active limit, less one.
   */
  lemma {:induction false} Capacity(run: Run, n: nat, limits: Limits)
    requires AllOrderly(run) && StartedWhenAccepting(run) && FixedLimits(run, limits) && n < |run.states|
    requires limits.globalActiveTasks >= 1
    ensures |OpenIds(run.states[n].table)| <= limits.globalPendingTasks + limits.globalActiveTasks - 1
  {
    if n > 0 {
      Capacity(run, n - 1, limits);
      CapacityNext(run, n - 1, limits);
    } else {
      assert OrderlyFor(run, 0, false);
      assert run.states[0].table == map[];
    }
  }

  /** Submissions are accepted only while the manager serves. */
  ghost predicate ServingWhenAccepting(run: Run) {
    IsRun(run) && forall i :: 0 <= i < |run.labels| && run.labels[i].SubmitStep? && Creates(run.states[i], run.labels[i].request) ==>
      run.states[i].phase == Serving
  }

  lemma ServingIsOrderly(run: Run)
    requires ServingWhenAccepting(run)
    ensures AllOrderly(run) && StartedWhenAccepting(run)
  {
    forall id ensures OrderlyFor(run, id, false) {
      forall i | 0 <= i < |run.labels| && CreatedAt(run, i, id) ensures Timely(run.states[i].phase, false) {
        assert run.states[i].phase == Serving;
      }
      TimelyIsOrderly(run, id, false);
    }
  }

  /** The capacity bound for callers that submit only while the manager serves. */
  lemma ServingCapacity(run: Run, n: nat, limits: Limits)
    requires ServingWhenAccepting(run) && FixedLimits(run, limits) && n < |run.states| && limits.globalActiveTasks >= 1
    ensures |OpenIds(run.states[n].table)| <= limits.globalPendingTasks + limits.globalActiveTasks - 1
  {
    ServingIsOrderly(run);
    Capacity(run, n, limits);
  }
}
