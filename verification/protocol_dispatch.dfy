/** What a worker is sent: the request log, at most once, and idempotency keys. */
module Dispatches {
  import opened Wrappers
  import opened TaskStates
  import opened TaskTable
  import opened PathPolicy
  import opened Protocol
  import opened Invariant
  import opened TaskLife
  import opened Theorems

  // ----- The request log -----

  /** The number of requests ever sent for a task. */
  function Sends(log: seq<Dispatch>, id: TaskId): nat {
    if log == [] then 0
    else Sends(log[..|log| - 1], id) + (if log[|log| - 1].taskId == id then 1 else 0)
  }

  lemma {:induction false} SendsBounded(log: seq<Dispatch>, id: TaskId, top: nat)
    requires EntriesOk(log, id, top)
    ensures Sends(log, id) <= top
    decreases |log|
  {
    if log != [] {
      var front, last := log[..|log| - 1], log[|log| - 1];
      assert forall i :: 0 <= i < |front| ==> front[i] == log[i];
      if last.taskId == id {
        SendsBounded(front, id, last.attemptNumber - 1);
      } else {
        SendsBounded(front, id, top);
      }
    }
  }

  /** In every run each request ever sent carries worker, prompt, directory, limit and key of its task's stored record. */
  lemma DispatchEntry(run: Run, n: nat, i: nat)
    requires IsRun(run) && n < |run.states| && i < |run.states[n].log|
    ensures var d, table := run.states[n].log[i], run.states[n].table;
      && d.taskId in table && d.attemptId.Some? && d.attemptNumber >= 1
      && d.workerId == table[d.taskId].workerId && d.prompt == table[d.taskId].prompt
      && d.workingDirectory == table[d.taskId].workingDirectory && d.timeoutSeconds == table[d.taskId].timeoutSeconds
      && d.idempotencyKey == table[d.taskId].idempotencyKey
      && d.workingDirectory.Some? && Dispatchable(d.workingDirectory.value)
  {
    RunSane(run, n);
    var s := run.states[n];
    assert EntryOk(s.log[i], s.table, s.supply);
    assert RecordOk(s.log[i].taskId, s.table[s.log[i].taskId], s.supply);
  }

  /**
   Of the requests for a task that every start has found ready: numbers and attempt ids strictly increase,
   the recovery flag marks exactly the attempts after the first, and there are never more than attempts.
   */
  lemma DispatchLog(run: Run, n: nat, id: TaskId, i: nat)
    requires OrderlyFor(run, id, false) && n < |run.states| && id in run.states[n].table
    requires i < |run.states[n].log| && run.states[n].log[i].taskId == id
    ensures var log, r := run.states[n].log, run.states[n].table[id];
      && Sends(log, id) <= r.attemptCount
      && 1 <= log[i].attemptNumber <= r.attemptCount && (log[i].recoveryAttempt <==> log[i].attemptNumber >= 2)
      && forall j :: i < j < |log| && log[j].taskId == id ==>
           && log[i].attemptNumber < log[j].attemptNumber && log[j].recoveryAttempt
           && log[i].attemptId.Some? && log[j].attemptId.Some? && log[i].attemptId.value < log[j].attemptId.value
  {
    RunInv(run, n, id, false);
    SendsBounded(run.states[n].log, id, run.states[n].table[id].attemptCount);
  }

  // ----- Attempt ids across tasks -----

  ghost predicate DrawnFor(owner: map<AttemptId, TaskId>, attempt: Option<AttemptId>, id: TaskId) {
    attempt.Some? && attempt.value in owner && owner[attempt.value] == id
  }

  /** Each attempt id, wherever it stands, was drawn for one task. */
  ghost predicate Owned(s: State, owner: map<AttemptId, TaskId>) {
    match s
    case State(table, runners, _, _, _, _, log, _, _, supply) =>
    && (forall a :: a in owner ==> a < supply)
    && (forall id :: id in table && table[id].dispatchAttemptId.Some? ==>
      DrawnFor(owner, table[id].dispatchAttemptId, id))
    && (forall h :: h in runners && runners[h].pc.Calling? ==>
      DrawnFor(owner, runners[h].pc.task.dispatchAttemptId, h.taskId))
    && (forall i :: 0 <= i < |log| ==> DrawnFor(owner, log[i].attemptId, log[i].taskId))
  }

  /** What a step adds: at most the next id, for one task. */
  ghost predicate Draws(s: State, s': State, owner: map<AttemptId, TaskId>, owner': map<AttemptId, TaskId>) {
    && (forall a :: a in owner ==> a in owner' && owner'[a] == owner[a])
    && Owned(s', owner')
  }

  lemma SettleKeepsAttempts(s: State, id: TaskId, target: TaskState, error: Option<string>, result: Option<Payload>,
                            now: Time)
    requires id in s.table && s.table[id].taskId == id
    ensures var s' := SettleAs(s, id, target, error, result, now);
      && s'.table.Keys == s.table.Keys
        && (forall t :: t in s.table ==> s'.table[t].dispatchAttemptId == s.table[t].dispatchAttemptId)
      && s'.runners == s.runners && s'.log == s.log && s'.supply == s.supply
  {
    SettleIs(s, id, target, error, result, now);
    OutcomeAdvances(s.table[id], target, error, result, now);
  }

  /** The same attempts in the same places, or fewer coroutines. */
  lemma SameAttemptsOwned(s: State, s': State, owner: map<AttemptId, TaskId>)
    requires Owned(s, owner) && s'.log == s.log && s'.supply == s.supply
    requires s'.table.Keys == s.table.Keys && forall id :: id in s.table ==>
      s'.table[id].dispatchAttemptId == s.table[id].dispatchAttemptId
    requires s'.runners.Keys <= s.runners.Keys && forall h :: h in s'.runners ==> s'.runners[h].pc == s.runners[h].pc
    ensures Owned(s', owner)
  {
  }

  lemma SettleOwned(s: State, h: Handle, target: TaskState, error: Option<string>, result: Option<Payload>, now: Time,
                    owner: map<AttemptId, TaskId>)
    requires Sane(s) && h in s.runners && Verdict(target, error, result) && Owned(s, owner)
    ensures Draws(s, Finish(SettleAs(s, h.taskId, target, error, result, now), h), owner, owner)
  {
    OwnRecords(s, h.taskId);
    SettleKeepsAttempts(s, h.taskId, target, error, result, now);
    SameAttemptsOwned(s, Finish(SettleAs(s, h.taskId, target, error, result, now), h), owner);
  }

  lemma ReceiveOwned(s: State, h: Handle, reply: Reply, now: Time, owner: map<AttemptId, TaskId>)
    requires Sane(s) && h in s.runners && Owned(s, owner)
    ensures Draws(s, Receive(s, h, reply, now), owner, owner)
  {
    if Open(s, h.taskId) {
      ReceiveIs(s, h, reply, now);
      var failure := ReplyFailure(s.table[h.taskId], reply);
      if failure.Some? {
        SettleOwned(s, h, FailureTarget(failure.value), Some(FailureMessage(failure.value)), None, now, owner);
      } else {
        SettleOwned(s, h, Completed, None, Some(reply.result), now, owner);
      }
    }
  }

  lemma TakenOwned(s: State, h: Handle, task: TaskRecord, now: Time, owner: map<AttemptId, TaskId>)
    requires Takeable(s, h, task) && Owned(s, owner)
    ensures Draws(s, Taken(s, h, task, now), owner, owner[s.supply := h.taskId])
  {
    AttemptedOk(h.taskId, task, s.supply, now);
  }

  lemma AttemptOwned(s: State, h: Handle, task: TaskRecord, now: Time, owner: map<AttemptId, TaskId>)
    returns (owner': map<AttemptId, TaskId>)
    requires TableOk(s.table, s.supply) && h in s.runners && h.taskId in s.table && Owned(s, owner)
    requires RecordOk(h.taskId, task, s.supply) && SameTask(s.table[h.taskId], task) && !Terminal(task.state)
    requires task.state == Running ==> task == s.table[h.taskId]
    ensures Draws(s, TakeAttempt(s, h, task, now), owner, owner')
  {
    if task.state == Running {
      owner' := owner;
    } else {
      assert Takeable(s, h, task);
      TakeAttemptIs(s, h, task, now);
      TakenOwned(s, h, task, now, owner);
      owner' := owner[s.supply := h.taskId];
    }
  }

  lemma FinishOwned(s: State, h: Handle, owner: map<AttemptId, TaskId>)
    requires Owned(s, owner)
    ensures Draws(s, Finish(s, h), owner, owner)
  {
  }

  lemma SleepOwned(s: State, h: Handle, owner: map<AttemptId, TaskId>)
    requires Owned(s, owner) && h in s.runners && h.taskId in s.table
    ensures Draws(s, SetPc(s, h, Sleeping(s.table[h.taskId])), owner, owner)
  {
  }

  lemma FirstOwned(s: State, h: Handle, front: Frontmatter, now: Time, owner: map<AttemptId, TaskId>)
    returns (owner': map<AttemptId, TaskId>)
    requires Sane(s) && h in s.runners && Owned(s, owner)
    ensures Draws(s, First(s, h, front, now), owner, owner')
  {
    owner' := owner;
    OwnRecords(s, h.taskId);
    if s.runners[h].cancelRequested || !Open(s, h.taskId) {
      FinishOwned(s, h, owner);
    } else if s.config.recovery.delaySeconds != 0.0 && s.table[h.taskId].state == Recovering {
      SleepOwned(s, h, owner);
    } else {
      owner' := AttemptOwned(s, h, s.table[h.taskId], now, owner);
    }
  }

  lemma LoggedOwned(s: State, h: Handle, owner: map<AttemptId, TaskId>)
    requires h in s.runners && s.runners[h].pc.Calling? && s.runners[h].pc.task.taskId == h.taskId && Owned(s, owner)
    ensures Draws(s, Send(s, h), owner, owner)
  {
  }

  lemma SendOwned(s: State, h: Handle, owner: map<AttemptId, TaskId>)
    requires Sane(s) && h in s.runners && s.runners[h].pc.Calling? && Owned(s, owner)
    ensures Draws(s, Send(s, h), owner, owner)
  {
    OwnRecords(s, h.taskId);
    LoggedOwned(s, h, owner);
  }

  lemma SleeperAttemptOwned(s: State, h: Handle, now: Time, owner: map<AttemptId, TaskId>)
    returns (owner': map<AttemptId, TaskId>)
    requires Sane(s) && h in s.runners && s.runners[h].pc.Sleeping? && Owned(s, owner)
    ensures s.runners[h].pc.snapshot.workingDirectory.Some?
    ensures Draws(s, TakeAttempt(s, h, s.runners[h].pc.snapshot, now), owner, owner')
  {
    SleeperHolds(s, h);
    owner' := AttemptOwned(s, h, s.runners[h].pc.snapshot, now, owner);
  }

  lemma WokenOwned(s: State, h: Handle, front: Frontmatter, now: Time, owner: map<AttemptId, TaskId>)
    returns (owner': map<AttemptId, TaskId>)
    requires Sane(s) && h in s.runners && s.runners[h].pc.Sleeping? && Owned(s, owner)
    ensures Draws(s, Body(s, h, s.runners[h].pc.snapshot, front, now), owner, owner')
  {
    owner' := SleeperAttemptOwned(s, h, now, owner);
    BodyAttempts(s, h, s.runners[h].pc.snapshot, front, now);
  }

  lemma OwnStepOwned(s: State, l: Label, owner: map<AttemptId, TaskId>) returns (owner': map<AttemptId, TaskId>)
    requires Sane(s) && Enabled(s, l) && Own(l) && Owned(s, owner)
    ensures Draws(s, Next(s, l), owner, owner')
  {
    owner' := owner;
    match l {
      case FirstStep(h, front, now) => owner' := FirstOwned(s, h, front, now, owner);
      case WakeStep(h, front, now) => owner' := WokenOwned(s, h, front, now, owner);
      case SendStep(h) => SendOwned(s, h, owner);
      case ReceiveStep(h, reply, now) => ReceiveOwned(s, h, reply, now, owner);
      case InterruptStep(h, now) => SettleOwned(s, h, Cancelled, Some(BACKGROUND_CANCELLED), None, now, owner);
    }
  }

  lemma StartOwned(s: State, now: Time, owner: map<AttemptId, TaskId>)
    requires Sane(s) && Owned(s, owner)
    ensures Draws(s, Start(s, now), owner, owner)
  {
    if s.phase == Idle {
      StartShape(s, now);
      var table' := Start(s, now).table;
      forall id | id in table' && table'[id].dispatchAttemptId.Some? ensures table'[id] == s.table[id] {
        assert table'[id] == Marked(s.table[id], now);
      }
    }
  }

  lemma SubmitOwned(s: State, r: Request, owner: map<AttemptId, TaskId>)
    requires Sane(s) && Owned(s, owner)
    ensures Draws(s, Submit(s, r), owner, owner)
  {
    if Creates(s, r) {
      CreateIs(s, r);
    }
  }

  lemma ControlOwned(s: State, l: Label, owner: map<AttemptId, TaskId>)
    requires Enabled(s, l) && Owned(s, owner)
    requires l.StopBeginStep? || l.StopEndStep? || l.CrashStep? || l.ReloadStep? || l.SwitchStoreStep?
    ensures Draws(s, Next(s, l), owner, owner)
  {
  }

  lemma CancelKeepsAttempts(s: State, id: TaskId, now: Time)
    requires id in s.table && s.table[id].taskId == id && BackgroundOk(s.background, s.runners)
    ensures var s' := Cancel(s, id, now);
      && s'.table.Keys == s.table.Keys
        && (forall t :: t in s.table ==> s'.table[t].dispatchAttemptId == s.table[t].dispatchAttemptId)
      && s'.runners.Keys == s.runners.Keys && (forall h :: h in s.runners ==> s'.runners[h].pc == s.runners[h].pc)
      && s'.log == s.log && s'.supply == s.supply
  {
    SettleIs(RequestCancel(s, id), id, Cancelled, Some(CANCELLED_BY_CALLER), None, now);
    OutcomeAdvances(s.table[id], Cancelled, Some(CANCELLED_BY_CALLER), None, now);
  }

  lemma CancelOwned(s: State, id: TaskId, now: Time, owner: map<AttemptId, TaskId>)
    requires Sane(s) && Owned(s, owner)
    ensures Draws(s, Cancel(s, id, now), owner, owner)
  {
    if id in s.table {
      assert RecordOk(id, s.table[id], s.supply);
      CancelKeepsAttempts(s, id, now);
      SameAttemptsOwned(s, Cancel(s, id, now), owner);
    }
  }

  lemma StepOwned(s: State, l: Label, owner: map<AttemptId, TaskId>) returns (owner': map<AttemptId, TaskId>)
    requires Sane(s) && Enabled(s, l) && Owned(s, owner)
    ensures Draws(s, Next(s, l), owner, owner')
  {
    owner' := owner;
    if Own(l) {
      owner' := OwnStepOwned(s, l, owner);
    } else if l.StartStep? {
      StartOwned(s, l.now, owner);
    } else if l.SubmitStep? {
      SubmitOwned(s, l.request, owner);
    } else if l.CancelStep? {
      CancelOwned(s, l.taskId, l.now, owner);
    } else {
      ControlOwned(s, l, owner);
    }
  }

  lemma {:induction false} RunOwned(run: Run, n: nat) returns (owner: map<AttemptId, TaskId>)
    requires IsRun(run) && n < |run.states|
    ensures Owned(run.states[n], owner)
  {
    owner := map[];
    if n > 0 {
      owner := RunOwned(run, n - 1);
      StepFacts(run, n - 1);
      owner := StepOwned(run.states[n - 1], run.labels[n - 1], owner);
    }
  }

  /** In every run no two tasks are ever sent with the same attempt id. */
  lemma AttemptIdsNameOneTask(run: Run, n: nat, i: nat, j: nat)
    requires IsRun(run) && n < |run.states| && i < |run.states[n].log| && j < |run.states[n].log|
    requires run.states[n].log[i].attemptId == run.states[n].log[j].attemptId
    ensures run.states[n].log[i].taskId == run.states[n].log[j].taskId
  {
    var owner := RunOwned(run, n);
  }

  // ----- At most once -----

  /** The policy in force does not replay a task with this key. */
  predicate RefusesReplay(policy: RecoveryPolicy, key: Option<string>) {
    policy == Manual || (policy == Idempotent && !KeyGiven(key))
  }

  ghost predicate RefusedAt(s: State, id: TaskId) {
    id in s.table ==> RefusesReplay(s.config.recovery.policy, s.table[id].idempotencyKey)
  }

  /**
   One attempt at most, and once that was interrupted, a coroutine of the task can only be in its worker call still.
   */
  ghost predicate OneAttempt(s: State, id: TaskId) {
    id in s.table ==>
      && s.table[id].attemptCount <= 1
      && (s.table[id].state == Recovering ==> forall h :: h in s.runners && h.taskId == id ==> s.runners[h].pc.Calling?)
  }

  lemma TakenOnce(s: State, h: Handle, now: Time)
    requires Sane(s) && TaskInv(s, h.taskId, false) && OneAttempt(s, h.taskId) && h.taskId in s.table
      && Takeable(s, h, s.table[h.taskId])
    requires !s.runners[h].pc.Calling?
    ensures OneAttempt(Taken(s, h, s.table[h.taskId], now), h.taskId)
  {
    assert RecordOk(h.taskId, s.table[h.taskId], s.supply);
    AttemptedOk(h.taskId, s.table[h.taskId], s.supply, now);
  }

  lemma EndedOnce(s: State, h: Handle, target: TaskState, error: Option<string>, result: Option<Payload>, now: Time)
    requires OneAttempt(s, h.taskId) && h in s.runners && h.taskId in s.table && s.table[h.taskId].taskId == h.taskId
      && Terminal(target)
    ensures OneAttempt(Finish(SettleAs(s, h.taskId, target, error, result, now), h), h.taskId)
  {
    SettleFinishIs(s, h, target, error, result, now);
    OutcomeAdvances(s.table[h.taskId], target, error, result, now);
  }

  lemma ReceivedOnce(s: State, h: Handle, reply: Reply, now: Time)
    requires Sane(s) && OneAttempt(s, h.taskId) && h in s.runners
    ensures OneAttempt(Receive(s, h, reply, now), h.taskId)
  {
    OwnRecords(s, h.taskId);
    if Open(s, h.taskId) {
      ReceiveIs(s, h, reply, now);
      var failure := ReplyFailure(s.table[h.taskId], reply);
      if failure.Some? {
        EndedOnce(s, h, FailureTarget(failure.value), Some(FailureMessage(failure.value)), None, now);
      } else {
        EndedOnce(s, h, Completed, None, Some(reply.result), now);
      }
    }
  }

  lemma FirstOnce(s: State, h: Handle, front: Frontmatter, now: Time)
    requires Sane(s) && TaskInv(s, h.taskId, false) && h in s.runners && s.runners[h].pc.NotStarted?
      && OneAttempt(s, h.taskId)
    ensures OneAttempt(First(s, h, front, now), h.taskId)
  {
    OwnRecords(s, h.taskId);
    FirstIs(s, h, front, now, false);
    if !s.runners[h].cancelRequested && Open(s, h.taskId) {
      TakenOnce(s, h, now);
    }
  }

  lemma SentOnce(s: State, h: Handle)
    requires OneAttempt(s, h.taskId) && h in s.runners && s.runners[h].pc.Calling?
    ensures OneAttempt(Send(s, h), h.taskId)
  {
    assert Send(s, h).runners.Keys == s.runners.Keys;
  }

  /** No coroutine of such a task sleeps: it would be asleep on the Recovering record. */
  lemma NeverAsleep(s: State, h: Handle)
    requires Sane(s) && TaskInv(s, h.taskId, false) && h in s.runners && s.runners[h].pc.Sleeping?
      && !s.runners[h].cancelRequested
    ensures !OneAttempt(s, h.taskId)
  {
    OwnParts(s, h, false);
  }

  lemma OwnStepOnce(s: State, l: Label)
    requires Sane(s) && Enabled(s, l) && Own(l) && TaskInv(s, l.h.taskId, false) && OneAttempt(s, l.h.taskId)
    ensures OneAttempt(Next(s, l), l.h.taskId)
  {
    match l {
      case FirstStep(h, front, now) => FirstOnce(s, h, front, now);
      case WakeStep(h, _, _) => NeverAsleep(s, h);
      case SendStep(h) => SentOnce(s, h);
      case ReceiveStep(h, reply, now) => ReceivedOnce(s, h, reply, now);
      case InterruptStep(h, now) =>
        OwnRecords(s, h.taskId);
        EndedOnce(s, h, Cancelled, Some(BACKGROUND_CANCELLED), None, now);
    }
  }

  lemma OtherOnce(s: State, s': State, t: TaskId, id: TaskId)
    requires OneAttempt(s, id) && Within(s, s', t) && t != id
    ensures OneAttempt(s', id)
  {
    assert forall h :: h in s'.runners.Keys ==> h in s.runners.Keys;
  }

  lemma CancelOnce(s: State, t: TaskId, now: Time, id: TaskId)
    requires Sane(s) && OneAttempt(s, id)
    ensures OneAttempt(Cancel(s, t, now), id)
  {
    if t in s.table && t == id {
      assert RecordOk(id, s.table[id], s.supply);
      CancelIs(s, id, now);
      CancelEdge(id, s.table[id], s.supply);
      OutcomeAdvances(s.table[id], Cancelled, Some(CANCELLED_BY_CALLER), None, now);
    } else if t in s.table {
      CancelSane(s, t, now);
      OtherOnce(s, Cancel(s, t, now), t, id);
    }
  }

  lemma RefusedNotScheduled(s: State, now: Time, id: TaskId)
    requires id in s.table && Marked(s.table[id], now).state == Recovering && RefusedAt(s, id)
    ensures id !in ToSchedule(s, MarkRecovering(s.table, now))
  {
    assert !Scheduled(s.config.recovery.policy, Marked(s.table[id], now));
  }

  /** A start gives no coroutine to a task that it leaves or makes Recovering and refuses to replay. */
  lemma StartOnce(s: State, now: Time, id: TaskId)
    requires Sane(s) && TaskInv(s, id, false) && OneAttempt(s, id) && RefusedAt(s, id) && s.phase == Idle
    ensures OneAttempt(Start(s, now), id)
  {
    if id in s.table {
      assert RecordOk(id, s.table[id], s.supply);
      MarkedOk(id, s.table[id], now, s.supply);
      StartShape(s, now);
      if Marked(s.table[id], now).state == Recovering {
        RefusedNotScheduled(s, now, id);
        forall h | h in s.runners && h.taskId == id ensures s.runners[h].pc.Calling? {
          OwnParts(s, h, false);
        }
      }
    }
  }

  lemma SubmitOnce(s: State, r: Request, id: TaskId)
    requires Sane(s) && OneAttempt(s, id)
    ensures OneAttempt(Submit(s, r), id)
  {
    if Creates(s, r) {
      CreateIs(s, r);
    }
  }

  lemma ControlOnce(s: State, l: Label, id: TaskId)
    requires Enabled(s, l) && OneAttempt(s, id)
    requires l.StopBeginStep? || l.StopEndStep? || l.CrashStep? || l.ReloadStep? || l.SwitchStoreStep?
    ensures OneAttempt(Next(s, l), id)
  {
  }

  lemma StepOnce(s: State, l: Label, id: TaskId)
    requires Sane(s) && Enabled(s, l) && TaskInv(s, id, false) && OneAttempt(s, id) && RefusedAt(s, id)
    ensures OneAttempt(Next(s, l), id)
  {
    if Own(l) {
      if l.h.taskId == id {
        OwnStepOnce(s, l);
      } else {
        OwnStepSane(s, l);
        OtherOnce(s, Next(s, l), l.h.taskId, id);
      }
    } else if l.SubmitStep? {
      SubmitOnce(s, l.request, id);
    } else if l.CancelStep? {
      CancelOnce(s, l.taskId, l.now, id);
    } else if l.StartStep? {
      if s.phase == Idle { StartOnce(s, l.now, id); }
    } else {
      ControlOnce(s, l, id);
    }
  }

  lemma {:induction false} OneAttemptAlways(run: Run, n: nat, id: TaskId)
    requires OrderlyFor(run, id, false) && n < |run.states|
    requires forall i :: 0 <= i <= n ==> RefusedAt(run.states[i], id)
    ensures OneAttempt(run.states[n], id)
  {
    if n > 0 {
      OneAttemptAlways(run, n - 1, id);
      StepOf(run, n - 1, id, false);
      StepOnce(run.states[n - 1], run.labels[n - 1], id);
    }
  }

  /**
   At most once, over every run with any number of crashes, stops and restarts: a task that every start
   has found ready, and that the policy in force refuses to replay, is sent to its worker at most once.
   */
  lemma AtMostOnce(run: Run, n: nat, id: TaskId)
    requires OrderlyFor(run, id, false) && n < |run.states|
    requires forall i :: 0 <= i <= n ==> RefusedAt(run.states[i], id)
    ensures Sends(run.states[n].log, id) <= 1
  {
    OneAttemptAlways(run, n, id);
    RunInv(run, n, id, false);
    RunSane(run, n);
    var s := run.states[n];
    if id in s.table {
      SendsBounded(s.log, id, s.table[id].attemptCount);
    } else {
      NoEntriesYet(s.log, s.table, s.supply, id);
      SendsBounded(s.log, id, 0);
    }
  }

  // ----- Idempotency -----

  /** The row holds the key. */
  ghost predicate Holds(s: State, id: TaskId, key: string) {
    id in s.table && s.table[id].idempotencyKey == Some(key)
  }

  /** In every state of every run each key, the empty one included, names at most one record. */
  lemma KeyNamesOneTask(run: Run, i: nat, id: TaskId, other: TaskId, key: string)
    requires IsRun(run) && i < |run.states| && Holds(run.states[i], id, key) && Holds(run.states[i], other, key)
    ensures id == other
  {
    RunSane(run, i);
  }

  /**
   In every run: once a submission with a key created a task, every later state has that key on that
   task, with the first submission's worker and prompt; a later submission with the same key creates
   nothing, and is answered with that task exactly when it is admitted and the key is not empty.
   */
  lemma SubmissionIdempotent(run: Run, i: nat, j: nat, key: string)
    requires IsRun(run) && i < |run.labels| && i < j < |run.states|
    requires run.labels[i].SubmitStep? && run.labels[i].request.key == Some(key)
      && Creates(run.states[i], run.labels[i].request)
    ensures var id, first := run.states[i].supply, run.labels[i].request;
      && Holds(run.states[j], id, key)
      && run.states[j].table[id].workerId == first.workerId && run.states[j].table[id].prompt == first.prompt
    ensures j < |run.labels| && run.labels[j].SubmitStep? && run.labels[j].request.key == Some(key) ==>
      && run.states[j + 1] == run.states[j]
      && (Replays(run.states[j], run.labels[j].request)
        <==> Admission(run.states[j], run.labels[j].request).Ok? && key != "")
  {
    var s, r := run.states[i], run.labels[i].request;
    StepFacts(run, i);
    CreateIs(s, r);
    TaskKept(run, i + 1, j, s.supply);
    if j < |run.labels| { StepFacts(run, j); }
  }
}
