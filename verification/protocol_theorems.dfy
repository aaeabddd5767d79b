/**
 What the lifecycle guarantees over whole runs. A run takes any enabled steps from an empty store;
 where a guarantee about a task needs every start to find the task ready, or clean, it says so, and
 `TimelyIsOrderly` says which submissions are enough for that.
 */
module Theorems {
  import opened Wrappers
  import opened TaskStates
  import opened TaskTable
  import opened PathPolicy
  import opened Protocol
  import opened Invariant
  import opened TaskLife

  // ----- Runs seen from one task -----

  ghost predicate OrderlyAt(run: Run, i: nat, id: TaskId, clean: bool)
    requires i < |run.labels| && |run.states| == |run.labels| + 1
  {
    Orderly(run.states[i], run.labels[i], id, clean)
  }

  /** Every start of the run finds the task ready; for a clean task, clean. */
  ghost predicate OrderlyFor(run: Run, id: TaskId, clean: bool) {
    IsRun(run) && forall i :: 0 <= i < |run.labels| ==> OrderlyAt(run, i, id, clean)
  }

  /** Step i is the accepted submission that created the task. */
  ghost predicate CreatedAt(run: Run, i: nat, id: TaskId)
    requires |run.states| == |run.labels| + 1
  {
    i < |run.labels| && run.labels[i].SubmitStep? && Creates(run.states[i], run.labels[i].request)
      && run.states[i].supply == id
  }

  /** The task's own submission found no stop waiting; for a clean task, it found the manager serving. */
  ghost predicate TimelyFor(run: Run, id: TaskId, clean: bool) {
    IsRun(run) && forall i :: 0 <= i < |run.labels| && CreatedAt(run, i, id) ==> Timely(run.states[i].phase, clean)
  }

  lemma AttendedAfter(run: Run, i: nat, id: TaskId, clean: bool)
    requires IsRun(run) && i < |run.labels| && Attended(run.states[i], id, clean)
    requires CreatedAt(run, i, id) ==> Timely(run.states[i].phase, clean)
    ensures Attended(run.states[i + 1], id, clean)
  {
    StepFacts(run, i);
    AttendedStep(run.states[i], run.labels[i], id, clean);
  }

  lemma {:induction false} TimelyAttended(run: Run, i: nat, id: TaskId, clean: bool)
    requires TimelyFor(run, id, clean) && i < |run.states|
    ensures Attended(run.states[i], id, clean)
  {
    if i > 0 {
      TimelyAttended(run, i - 1, id, clean);
      AttendedAfter(run, i - 1, id, clean);
    }
  }

  /** A task whose own submission was timely is found ready, or clean, by every start, whatever else the run does. */
  lemma TimelyIsOrderly(run: Run, id: TaskId, clean: bool)
    requires TimelyFor(run, id, clean)
    ensures OrderlyFor(run, id, clean)
  {
    forall i | 0 <= i < |run.labels| ensures OrderlyAt(run, i, id, clean) {
      TimelyAttended(run, i, id, clean);
      RunSane(run, i);
      if run.states[i].phase == Idle {
        AttendedReady(run.states[i], id, clean);
      }
    }
  }

  /** The invariant of a task holds in every state of every run whose starts find it ready, or clean. */
  lemma {:induction false} RunInv(run: Run, i: nat, id: TaskId, clean: bool)
    requires OrderlyFor(run, id, clean) && i < |run.states|
    ensures TaskInv(run.states[i], id, clean)
  {
    if i > 0 {
      RunInv(run, i - 1, id, clean);
      StepFacts(run, i - 1);
      assert OrderlyAt(run, i - 1, id, clean);
      StepGood(run.states[i - 1], run.labels[i - 1], id, clean);
    } else {
      assert run.states[0].table == map[];
    }
  }

  lemma StepOf(run: Run, i: nat, id: TaskId, clean: bool)
    requires OrderlyFor(run, id, clean) && i < |run.labels|
    ensures Sane(run.states[i]) && TaskInv(run.states[i], id, clean)
      && Good(run.states[i], run.states[i + 1], id, clean)
    ensures Enabled(run.states[i], run.labels[i]) && run.states[i + 1] == Next(run.states[i], run.labels[i])
  {
    StepFacts(run, i);
    RunInv(run, i, id, clean);
    assert OrderlyAt(run, i, id, clean);
    StepGood(run.states[i], run.labels[i], id, clean);
  }

  // ----- Which starts are safe -----

  /** One live coroutine at most, in agreement with the record it works on. */
  ghost predicate Agreement(s: State, id: TaskId) {
    OneRunner(s.runners, id) && forall h :: h in s.runners && h.taskId == id ==>
      id in s.table && Faces(s.runners[h], s.table[id], true)
  }

  lemma AgreementOf(s: State, id: TaskId)
    requires Sane(s) && TaskInv(s, id, true)
    ensures Agreement(s, id)
  {
    forall h | h in s.runners && h.taskId == id ensures id in s.table && Faces(s.runners[h], s.table[id], true) {
      OwnParts(s, h, true);
    }
  }

  /** A task at work is made Recovering under the coroutine that works on it. */
  lemma UncleanDisagrees(s: State, h: Handle, now: Time)
    requires Sane(s) && TaskInv(s, h.taskId, true) && s.phase == Idle
    requires h in s.runners && !Terminal(s.table[h.taskId].state) && s.table[h.taskId].state != Pending
    ensures !Agreement(Start(s, now), h.taskId)
  {
    OwnParts(s, h, true);
    StartShape(s, now);
    assert Start(s, now).table[h.taskId] == Marked(s.table[h.taskId], now);
    MarkedOk(h.taskId, s.table[h.taskId], now, s.supply);
    assert h in Start(s, now).runners;
  }

  lemma PendingIsScheduled(policy: RecoveryPolicy, r: TaskRecord)
    requires r.state == Pending
    ensures Scheduled(policy, r)
  {
  }

  lemma PendingScheduled(s: State, id: TaskId, now: Time)
    requires id in s.table && s.table[id].state == Pending && id !in s.background
    ensures id in ToSchedule(s, MarkRecovering(s.table, now))
  {
    assert MarkRecovering(s.table, now)[id] == s.table[id];
    PendingIsScheduled(s.config.recovery.policy, s.table[id]);
  }

  /** A Pending task whose coroutine is not registered gets a second one. */
  lemma UncleanTwins(s: State, h: Handle, now: Time)
    requires Sane(s) && s.phase == Idle && h in s.runners && h.taskId !in s.background
      && s.table[h.taskId].state == Pending
    ensures !OneRunner(Start(s, now).runners, h.taskId)
  {
    StartShape(s, now);
    PendingScheduled(s, h.taskId, now);
    var twin := Handle(h.taskId, s.supply);
    assert twin in Start(s, now).runners && h in Start(s, now).runners && twin != h;
  }

  /** A start leaves a task with one coroutine that agrees with its record exactly when it finds the task clean. */
  lemma StartSafeIffClean(s: State, id: TaskId, now: Time)
    requires Sane(s) && TaskInv(s, id, true) && s.phase == Idle
    ensures Agreement(Start(s, now), id) <==> Ready(s, id, true)
  {
    if Ready(s, id, true) {
      StartGood(s, now, id, true);
      StartSane(s, now);
      AgreementOf(Start(s, now), id);
    } else {
      var h :| h in s.runners && h.taskId == id
        && !(Terminal(s.table[id].state) || (id in s.background && s.table[id].state == Pending));
      OwnParts(s, h, true);
      StartShape(s, now);
      if s.table[id].state == Pending {
        UncleanTwins(s, h, now);
      } else {
        UncleanDisagrees(s, h, now);
      }
    }
  }

  // ----- Records over every run -----

  lemma WithinKeepsTask(s: State, s': State, t: TaskId, id: TaskId)
    requires Within(s, s', t) && id in s.table
    ensures id in s'.table && SameTask(s'.table[id], s.table[id])
  {
  }

  lemma CancelKeepsTask(s: State, t: TaskId, now: Time, id: TaskId)
    requires Sane(s) && id in s.table
    ensures id in Cancel(s, t, now).table && SameTask(Cancel(s, t, now).table[id], s.table[id])
  {
    if t in s.table {
      CancelSane(s, t, now);
      WithinKeepsTask(s, Cancel(s, t, now), t, id);
    }
  }

  lemma SubmitKeepsTask(s: State, r: Request, id: TaskId)
    requires Sane(s) && id in s.table
    ensures id in Submit(s, r).table && Submit(s, r).table[id] == s.table[id]
  {
    if Creates(s, r) {
      CreateIs(s, r);
    }
  }

  lemma ControlKeepsTask(s: State, l: Label, id: TaskId)
    requires Sane(s) && Enabled(s, l) && id in s.table && !Own(l) && !l.CancelStep? && !l.StartStep?
    ensures id in Next(s, l).table && Next(s, l).table[id] == s.table[id]
  {
    if l.SubmitStep? {
      SubmitKeepsTask(s, l.request, id);
    }
  }

  lemma MarkedKeeps(s: State, now: Time, id: TaskId)
    requires TableOk(s.table, s.supply) && id in s.table
    ensures id in Start(s, now).table && SameTask(Start(s, now).table[id], s.table[id])
  {
    assert RecordOk(id, s.table[id], s.supply);
    MarkedOk(id, s.table[id], now, s.supply);
  }

  lemma StepKeepsTask(s: State, l: Label, id: TaskId)
    requires Sane(s) && Enabled(s, l) && id in s.table
    ensures id in Next(s, l).table && SameTask(Next(s, l).table[id], s.table[id])
  {
    if Own(l) {
      OwnStepSane(s, l);
      WithinKeepsTask(s, Next(s, l), l.h.taskId, id);
    } else if l.CancelStep? {
      CancelKeepsTask(s, l.taskId, l.now, id);
    } else if l.StartStep? {
      MarkedKeeps(s, l.now, id);
    } else {
      ControlKeepsTask(s, l, id);
    }
  }

  lemma TaskKeptAt(run: Run, i: nat, id: TaskId)
    requires IsRun(run) && i < |run.labels| && id in run.states[i].table
    ensures id in run.states[i + 1].table && SameTask(run.states[i + 1].table[id], run.states[i].table[id])
  {
    StepFacts(run, i);
    StepKeepsTask(run.states[i], run.labels[i], id);
  }

  /** From any earlier to any later state of any run: no record disappears, and what its submission fixed stays. */
  lemma {:induction false} TaskKept(run: Run, i: nat, j: nat, id: TaskId)
    requires IsRun(run) && i <= j < |run.states| && id in run.states[i].table
    ensures id in run.states[j].table && SameTask(run.states[j].table[id], run.states[i].table[id])
    decreases j
  {
    if i < j {
      TaskKept(run, i, j - 1, id);
      TaskKeptAt(run, j - 1, id);
    }
  }

  /** In every reachable record Retrying never occurs, and the optional fields tell the state. */
  lemma RecordShape(run: Run, i: nat, id: TaskId)
    requires IsRun(run) && i < |run.states| && id in run.states[i].table
    ensures var r := run.states[i].table[id];
      && r.taskId == id && r.state != Retrying
      && (r.completedAt.Some? <==> Terminal(r.state))
      && (r.result.Some? <==> r.state == Completed)
      && (r.error.Some? <==> r.state in {Failed, Cancelled, TimedOut})
      && (r.startedAt.Some? <==> r.attemptCount >= 1)
      && (r.state == Pending ==> r.attemptCount == 0)
      && r.workingDirectory.Some? && Dispatchable(r.workingDirectory.value)
  {
    RunSane(run, i);
    assert RecordOk(id, run.states[i].table[id], run.states[i].supply);
  }

  lemma FrozenStep(run: Run, i: nat, id: TaskId)
    requires OrderlyFor(run, id, false) && i < |run.labels| && id in run.states[i].table
    ensures id in run.states[i + 1].table
    ensures run.states[i].table[id].attemptCount <= run.states[i + 1].table[id].attemptCount
    ensures Terminal(run.states[i].table[id].state) ==> run.states[i + 1].table[id] == run.states[i].table[id]
  {
    StepOf(run, i, id, false);
  }

  /**
   While every start finds the task ready, its record is frozen once terminal, in every field, and no attempt is ever
   lost.
   */
  lemma {:induction false} TerminalFrozen(run: Run, i: nat, j: nat, id: TaskId)
    requires OrderlyFor(run, id, false) && i <= j < |run.states| && id in run.states[i].table
    ensures id in run.states[j].table
    ensures run.states[i].table[id].attemptCount <= run.states[j].table[id].attemptCount
    ensures Terminal(run.states[i].table[id].state) ==> run.states[j].table[id] == run.states[i].table[id]
    decreases j
  {
    if i < j {
      TerminalFrozen(run, i, j - 1, id);
      FrozenStep(run, j - 1, id);
    }
  }

  /** While every start finds the task ready, each step leaves its state or takes it along one allowed edge. */
  lemma AllowedEdgesOnly(run: Run, i: nat, id: TaskId)
    requires OrderlyFor(run, id, false) && i < |run.labels| && id in run.states[i].table
    ensures id in run.states[i + 1].table
    ensures var r, r' := run.states[i].table[id], run.states[i + 1].table[id];
      r'.state == r.state || r'.state in AllowedTransitions(r.state)
  {
    StepOf(run, i, id, false);
  }

  lemma CancelledRecord(s: State, id: TaskId, now: Time)
    requires Sane(s) && Open(s, id)
    ensures id in Cancel(s, id, now).table
    ensures Cancel(s, id, now).table[id]
      == s.table[id].(state := Cancelled, updatedAt := now, completedAt := Some(now), error :=
      Some(CANCELLED_BY_CALLER))
  {
    assert RecordOk(id, s.table[id], s.supply);
    CancelEdge(id, s.table[id], s.supply);
    CancelIs(s, id, now);
  }

  /**
   Cancelling an open task always succeeds, and what it writes is never changed again by any later reply, wake-up or
   restart.
   */
  lemma CancelIsFinal(run: Run, i: nat, j: nat)
    requires i < |run.labels| && i < j < |run.states| && run.labels[i].CancelStep?
    requires OrderlyFor(run, run.labels[i].taskId, false) && Open(run.states[i], run.labels[i].taskId)
    ensures var id := run.labels[i].taskId;
      && id in run.states[i + 1].table && id in run.states[j].table
      && run.states[i + 1].table[id].state == Cancelled
      && run.states[i + 1].table[id].error == Some("cancelled by caller")
      && run.states[i + 1].table[id].completedAt == Some(run.labels[i].now)
      && run.states[j].table[id] == run.states[i + 1].table[id]
  {
    var s, id, now := run.states[i], run.labels[i].taskId, run.labels[i].now;
    StepFacts(run, i);
    CancelledRecord(s, id, now);
    TerminalFrozen(run, i + 1, j, id);
  }

  // ----- Coroutines and records -----

  /** While every start finds the task ready, it has at most one live coroutine. */
  lemma OneCoroutine(run: Run, i: nat, g: Handle, h: Handle)
    requires OrderlyFor(run, h.taskId, false) && i < |run.states|
    requires g in run.states[i].runners && h in run.states[i].runners && g.taskId == h.taskId
    ensures g == h
  {
    RunInv(run, i, h.taskId, false);
    RunSane(run, i);
  }

  /**
   While every start finds the task clean, a coroutine in the worker call faces a record that is terminal or Running
   with exactly its attempt.
   */
  lemma RunnerRecordAgreement(run: Run, i: nat, h: Handle)
    requires OrderlyFor(run, h.taskId, true) && i < |run.states| && h in run.states[i].runners
      && run.states[i].runners[h].pc.Calling?
    ensures h.taskId in run.states[i].table
    ensures var r, task := run.states[i].table[h.taskId], run.states[i].runners[h].pc.task;
      && (Terminal(r.state) || r == task) && task.state == Running
      && r.dispatchAttemptId == task.dispatchAttemptId && r.dispatchAttemptId.Some?
        && r.attemptCount == task.attemptCount
  {
    RunInv(run, i, h.taskId, true);
    RunSane(run, i);
    OwnParts(run.states[i], h, true);
  }

  /** What a reply leaves: an open record settled as the reply asks, or a finished one untouched. */
  ghost predicate Settled(s: State, s': State, id: TaskId, target: TaskState, error: Option<string>,
                          result: Option<Payload>, now: Time) {
    && id in s.table && id in s'.table
    && (Terminal(s.table[id].state) ==> s'.table == s.table && s'.counters == s.counters)
    && (!Terminal(s.table[id].state) ==>
      s'.table[id] == s.table[id].(state := target, error := error, result := result, updatedAt := now,
                                   completedAt := Some(now)))
  }

  lemma SettledFinish(s: State, h: Handle, target: TaskState, error: Option<string>, result: Option<Payload>, now: Time)
    requires h in s.runners && Open(s, h.taskId) && RecordOk(h.taskId, s.table[h.taskId], s.supply)
    requires target in AllowedTransitions(s.table[h.taskId].state) && Verdict(target, error, result)
    ensures Settled(s, Finish(SettleAs(s, h.taskId, target, error, result, now), h), h.taskId, target, error, result,
      now)
  {
    SettleFinishIs(s, h, target, error, result, now);
  }

  lemma ReceivedIsSettled(s: State, h: Handle, reply: Reply, now: Time)
    requires Sane(s) && TaskInv(s, h.taskId, true) && h in s.runners && s.runners[h].pc.Calling?
    ensures match reply
            case Returned(result) => Settled(s, Receive(s, h, reply, now), h.taskId, Completed, None, Some(result), now)
            case Threw(failure) => Settled(s, Receive(s, h, reply, now), h.taskId, FailureTarget(failure),
              Some(FailureMessage(failure)), None, now)
  {
    OwnParts(s, h, true);
    if Open(s, h.taskId) {
      ReceiveIs(s, h, reply, now);
      match reply {
        case Returned(result) => SettledFinish(s, h, Completed, None, Some(result), now);
        case Threw(failure) => SettledFinish(s, h, FailureTarget(failure), Some(FailureMessage(failure)), None, now);
      }
    }
  }

  /** The transition to Completed after a reply is never refused: the reply is stored, or the task was already over. */
  lemma CompletionNeverRefused(run: Run, i: nat)
    requires i < |run.labels| && run.labels[i].ReceiveStep? && run.labels[i].reply.Returned?
    requires OrderlyFor(run, run.labels[i].h.taskId, true)
    ensures Settled(run.states[i], run.states[i + 1], run.labels[i].h.taskId, Completed, None,
      Some(run.labels[i].reply.result), run.labels[i].now)
  {
    var s, l := run.states[i], run.labels[i];
    StepOf(run, i, l.h.taskId, true);
    ReceivedIsSettled(s, l.h, l.reply, l.now);
  }

  /**
   A call that raises is always recorded: an open task becomes TimedOut exactly when the exception was
   the built-in timeout or its text mentions one, Failed otherwise; a task already over keeps its record.
   */
  lemma FailureRecorded(run: Run, i: nat)
    requires i < |run.labels| && run.labels[i].ReceiveStep? && run.labels[i].reply.Threw?
    requires OrderlyFor(run, run.labels[i].h.taskId, true)
    ensures var failure := run.labels[i].reply.failure;
      var message := if failure.text != "" then failure.text
        else if failure.Timeout? then "worker timed out" else failure.className;
      Settled(run.states[i], run.states[i + 1], run.labels[i].h.taskId,
              if failure.Timeout? || MentionsTimeout(message) then TimedOut else Failed, Some(message), None,
              run.labels[i].now)
  {
    var s, l := run.states[i], run.labels[i];
    StepOf(run, i, l.h.taskId, true);
    ReceivedIsSettled(s, l.h, l.reply, l.now);
  }

  /**
   In every run a coroutine interrupted while it sleeps or calls leaves an open task Cancelled, and a finished one as it
   was.
   */
  lemma InterruptionRecorded(run: Run, i: nat)
    requires IsRun(run) && i < |run.labels| && run.labels[i].InterruptStep?
    ensures Settled(run.states[i], run.states[i + 1], run.labels[i].h.taskId, Cancelled, Some("background task cancelled"),
      None, run.labels[i].now)
  {
    var s, h, now := run.states[i], run.labels[i].h, run.labels[i].now;
    StepFacts(run, i);
    OwnRecords(s, h.taskId);
    CancelEdge(h.taskId, s.table[h.taskId], s.supply);
    if Open(s, h.taskId) {
      SettledFinish(s, h, Cancelled, Some(BACKGROUND_CANCELLED), None, now);
    }
  }

  /**
   While serving, an open task that every start has found clean has a live coroutine, or the last start refused to
   replay it.
   */
  lemma NoLostTask(run: Run, i: nat, id: TaskId)
    requires OrderlyFor(run, id, true) && i < |run.states| && run.states[i].phase == Serving && Open(run.states[i], id)
    ensures id in ActiveIds(run.states[i])
      || (run.states[i].table[id].state == Recovering && id in run.states[i].deferred)
  {
    RunInv(run, i, id, true);
    RunSane(run, i);
  }

  lemma CancelKeepsHandles(s: State, id: TaskId, now: Time)
    requires Sane(s)
    ensures Cancel(s, id, now).runners.Keys == s.runners.Keys
  {
    if id in s.table {
      assert RecordOk(id, s.table[id], s.supply);
      CancelIs(s, id, now);
    }
  }

  lemma ControlKeepsHandles(s: State, l: Label)
    requires RunnersOk(s.runners, s.table, s.supply) && Enabled(s, l) && !Own(l) && !l.CrashStep? && !l.CancelStep?
    ensures s.runners.Keys <= Next(s, l).runners.Keys
  {
    if l.StartStep? && s.phase == Idle {
      StartShape(s, l.now);
    }
  }

  lemma OthersStay(s: State, l: Label)
    requires Sane(s) && Enabled(s, l) && !Own(l) && !l.CrashStep?
    ensures s.runners.Keys <= Next(s, l).runners.Keys
  {
    if l.CancelStep? {
      CancelKeepsHandles(s, l.taskId, l.now);
    } else {
      ControlKeepsHandles(s, l);
    }
  }

  lemma OnlyOwnStepsEnd(s: State, l: Label, h: Handle)
    requires Sane(s) && Enabled(s, l) && !l.CrashStep?
    requires h in s.runners && s.runners[h].pc.Calling? && h !in Next(s, l).runners
    ensures (l.ReceiveStep? || l.InterruptStep?) && l.h == h
  {
    if Own(l) {
      OwnHandles(s, l);
      assert h !in Next(s, l).runners.Keys;
    } else {
      OthersStay(s, l);
    }
  }

  /** A coroutine that reached the worker call leaves a terminal record behind, however it ends short of a crash. */
  lemma DispatchedRunnerSettles(run: Run, i: nat, h: Handle)
    requires OrderlyFor(run, h.taskId, true) && i < |run.labels| && !run.labels[i].CrashStep?
    requires h in run.states[i].runners && run.states[i].runners[h].pc.Calling? && h !in run.states[i + 1].runners
    ensures h.taskId in run.states[i + 1].table && Terminal(run.states[i + 1].table[h.taskId].state)
  {
    var s, l := run.states[i], run.labels[i];
    StepOf(run, i, h.taskId, true);
    OnlyOwnStepsEnd(s, l, h);
    if l.ReceiveStep? {
      ReceivedIsSettled(s, h, l.reply, l.now);
    } else {
      InterruptionRecorded(run, i);
    }
  }

  // ----- Stopping -----

  /** The step in which `stop` returns: after its wait, or at once when there is nothing to wait for. */
  ghost predicate StopReturns(run: Run, i: nat) {
    IsRun(run) && i < |run.labels| && run.states[i].phase != Idle && run.states[i + 1].phase == Idle
    && (run.labels[i].StopBeginStep? || run.labels[i].StopEndStep?)
  }

  lemma WaitOver(s: State, id: TaskId)
    requires Sane(s) && Attended(s, id, false) && Enabled(s, StopEndStep)
    ensures id !in s.background && forall h :: h in s.runners ==> h.taskId != id
  {
    assert forall h :: h in s.runners.Keys ==> h !in s.phase.waiting;
  }

  /**
   When `stop` returns, a task that was not itself submitted while a stop waited has no coroutine left and is not
   Running.
   */
  lemma GracefulStop(run: Run, i: nat, id: TaskId, h: Handle)
    requires StopReturns(run, i) && TimelyFor(run, id, false)
    ensures h in run.states[i + 1].runners ==> h.taskId != id
    ensures id in run.states[i + 1].table ==> run.states[i + 1].table[id].state != Running
  {
    var s := run.states[i];
    TimelyAttended(run, i, id, false);
    TimelyIsOrderly(run, id, false);
    StepOf(run, i, id, false);
    if run.labels[i].StopBeginStep? {
      NobodyRegistered(s);
    } else {
      WaitOver(s, id);
    }
  }

  /**
   A reload that names another store is refused while any coroutine is registered, and changes nothing
   then; accepted, it strands no task that was submitted while serving: such a task has no coroutine
   left, and if it is open the last start refused to replay it.
   */
  lemma StoreSwitchStrandsNobody(run: Run, i: nat, id: TaskId, h: Handle)
    requires TimelyFor(run, id, true) && i < |run.labels| && run.labels[i].SwitchStoreStep?
      && run.states[i].phase == Serving
    ensures run.states[i + 1].phase != Idle ==> run.states[i + 1] == run.states[i]
    ensures run.states[i + 1].phase == Idle <==> run.states[i].background == map[]
    ensures var s' := run.states[i + 1];
      s'.phase == Idle ==>
        && (h in s'.runners ==> h.taskId != id)
        && (Open(s', id) ==> s'.table[id].state == Recovering && id in s'.deferred)
  {
    var s := run.states[i];
    TimelyAttended(run, i, id, true);
    TimelyIsOrderly(run, id, true);
    StepOf(run, i, id, true);
    if ActiveIds(s) == {} {
      NobodyRegistered(s);
    }
  }

  // ----- Legacy rows -----

  /**
   From an empty store the missing-directory branch is unreachable: no first step or wake-up depends on what the prompt
   reads as.
   */
  lemma DirectoryBranchUnreachable(run: Run, i: nat)
    requires IsRun(run) && i < |run.labels| && (run.labels[i].FirstStep? || run.labels[i].WakeStep?)
    ensures StepAt(run, i) && forall front :: Next(run.states[i], run.labels[i].(front := front)) == run.states[i + 1]
  {
    var s, l := run.states[i], run.labels[i];
    StepFacts(run, i);
    OwnRecords(s, l.h.taskId);
  }

  function NotAllowed(path: string, allowed: string): string {
    "Specified working_directory '" + path + "' not in allowed paths: " + allowed
  }

  /**
   Why a row without a directory cannot be dispatched, if it cannot: its worker is gone, or its prompt no longer
   resolves. This is the message of the exception.
   */
  function PreDispatchMessage(config: Config, r: TaskRecord, front: Frontmatter): Option<string> {
    if r.workerId !in config.workers then Some("'unknown worker_id: " + r.workerId + "'")
    else
      var paths := config.workers[r.workerId].writePaths;
      match front
      case Absent => Some("working_directory is required in YAML frontmatter")
      case Malformed(shown) => Some(NotAllowed(shown, "(none)"))
      case Declared(path) =>
        if PathIsAllowed(path, paths) then None
        else Some(NotAllowed(path, if paths == [] then "(none)" else Listed(paths)))
  }

  /** A row without a directory, as an older store may hold, whose coroutine cannot go on. */
  ghost predicate StuckRow(s: State, id: TaskId, front: Frontmatter) {
    && id in s.table && s.table[id].taskId == id && s.table[id].workingDirectory.None?
    && PreDispatchMessage(s.config, s.table[id], front).Some?
  }

  lemma StuckBody(s: State, h: Handle, front: Frontmatter, now: Time) returns (failure: Failure)
    requires h in s.runners && StuckRow(s, h.taskId, front)
    ensures failure.Raised? && FailureMessage(failure) == PreDispatchMessage(s.config, s.table[h.taskId], front).value
    ensures Body(s, h, s.table[h.taskId], front, now) == Finish(HandleFailure(s, h.taskId, failure, now), h)
  {
    var r := s.table[h.taskId];
    if r.workerId !in s.config.workers {
      failure := Raised("'unknown worker_id: " + r.workerId + "'", "KeyError");
    } else {
      var error := ResolveDirectory(front, s.config.workers[r.workerId].writePaths).error;
      failure := DirectoryFailure(error);
    }
  }

  /**
   The pre-dispatch failure of such a row is recorded exactly when the row is Recovering and the message
   mentions no timeout; Pending has no edge to Failed or TimedOut and Recovering none to TimedOut, and then
   the failure is swallowed: the row stays as it is and its coroutine is gone.
   */
  lemma LegacyRowFailure(s: State, h: Handle, front: Frontmatter, now: Time)
    requires h in s.runners && StuckRow(s, h.taskId, front) && s.table[h.taskId].state in {Pending, Recovering}
    ensures var r, message := s.table[h.taskId], PreDispatchMessage(s.config, s.table[h.taskId], front).value;
      var s' := Body(s, h, r, front, now);
      && h !in s'.runners && h.taskId in s'.table
      && if r.state == Recovering && !MentionsTimeout(message) then
           s'.table[h.taskId] == r.(state := Failed, error := Some(message), updatedAt := now, completedAt := Some(now))
         else s' == Finish(s, h)
  {
    var failure := StuckBody(s, h, front, now);
    SettleIs(s, h.taskId, FailureTarget(failure), Some(FailureMessage(failure)), None, now);
  }

  lemma StuckFirst(s: State, h: Handle, front: Frontmatter, now: Time)
    requires h in s.runners && s.runners[h] == Runner(NotStarted, false) && StuckRow(s, h.taskId, front)
      && s.table[h.taskId].state == Pending
    ensures First(s, h, front, now) == Finish(s, h)
  {
    LegacyRowFailure(s, h, front, now);
  }

  lemma RestartSchedulesPending(s: State, id: TaskId, now: Time)
    requires s.phase == Idle && id in s.table && s.table[id].state == Pending
    requires (forall h :: h in s.runners ==> h.taskId != id && h.serial < s.supply) && id !in s.background
    ensures var h, s' := Handle(id, s.supply), Start(s, now);
      && id in s'.table && s'.table[id] == s.table[id] && s'.config == s.config
      && h in s'.runners && s'.runners[h] == Runner(NotStarted, false) && forall g :: g in s'.runners && g.taskId == id ==> g == h
  {
    PendingScheduled(s, id, now);
    forall g | g in Start(s, now).runners && g.taskId == id ensures g == Handle(id, s.supply) {
      assert g !in s.runners;
    }
  }

  /** A Pending row without a directory, and no coroutine of it: what a new process may find. */
  ghost predicate Waiting(s: State, id: TaskId) {
    && s.phase == Idle && id !in s.background && (forall h :: h in s.runners ==> h.taskId != id && h.serial < s.supply)
    && id in s.table && s.table[id].taskId == id && s.table[id].state == Pending && s.table[id].workingDirectory.None?
  }

  /** A start, the first step of the coroutine it schedules for the row, and the end of the process. */
  ghost function Restarted(s: State, id: TaskId, front: Frontmatter, now: Time): State {
    var s1, h := Start(s, now), Handle(id, s.supply);
    if h in s1.runners then Crash(First(s1, h, front, now)) else Crash(s1)
  }

  /** The start gives a stuck row a coroutine again, and that one ends as the last did. */
  lemma LegacyRowStuckAgain(s: State, id: TaskId, front: Frontmatter, now: Time)
    requires Waiting(s, id) && StuckRow(s, id, front)
    ensures var h, s1 := Handle(id, s.supply), Start(s, now);
      && h in s1.runners && Enabled(s1, FirstStep(h, front, now))
      && Next(s1, FirstStep(h, front, now)) == Finish(s1, h)
    ensures var s' := Restarted(s, id, front, now); Waiting(s', id) && s'.table[id] == s.table[id] && s'.config == s.config
  {
    RestartSchedulesPending(s, id, now);
    StuckFirst(Start(s, now), Handle(id, s.supply), front, now);
  }

  /** One restart after the other, each with what the prompt reads as then. */
  ghost function AllRestarted(s: State, id: TaskId, rounds: seq<(Frontmatter, Time)>): State {
    if rounds == [] then s
    else
      var before := AllRestarted(s, id, rounds[..|rounds| - 1]);
      var last := rounds[|rounds| - 1];
      Restarted(before, id, last.0, last.1)
  }

  /**
   However often it is restarted, while the worker is gone or the prompt does not resolve: nothing about the row
   changes, ever.
   */
  lemma {:induction false} LegacyRowStuckForever(s: State, id: TaskId, rounds: seq<(Frontmatter, Time)>)
    requires Waiting(s, id) && forall i :: 0 <= i < |rounds| ==> StuckRow(s, id, rounds[i].0)
    ensures var s' := AllRestarted(s, id, rounds); Waiting(s', id) && s'.table[id] == s.table[id] && s'.config == s.config
    decreases |rounds|
  {
    if rounds != [] {
      var front, last := rounds[..|rounds| - 1], rounds[|rounds| - 1];
      assert forall i :: 0 <= i < |front| ==> front[i] == rounds[i];
      LegacyRowStuckForever(s, id, front);
      LegacyRowStuckAgain(AllRestarted(s, id, front), id, last.0, last.1);
    }
  }
}
