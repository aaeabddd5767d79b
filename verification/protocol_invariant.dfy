/**
 What every run keeps, however submissions, stops and starts interleave: well-shaped records,
 unique keys, coroutines that work on the task they were started for, and a request log that
 agrees with the table. What holds of one task under a condition on its own starts is in `TaskLife`.
 */
module Invariant {
  import opened Wrappers
  import opened TaskStates
  import opened TaskTable
  import opened Counting
  import opened PathPolicy
  import opened Protocol

  // ----- Records -----

  /** What every stored record satisfies. */
  ghost predicate RecordOk(id: TaskId, r: TaskRecord, supply: nat) {
    && r.taskId == id < supply
    && r.state != Retrying
    && (r.completedAt.Some? <==> Terminal(r.state))
    && (r.result.Some? <==> r.state == Completed)
    && (r.error.Some? <==> r.state == Failed || r.state == Cancelled || r.state == TimedOut)
    && (r.startedAt.Some? <==> r.attemptCount >= 1)
    && (r.state == Pending ==> r.attemptCount == 0)
    && (r.attemptCount == 0 ==> r.state == Pending || r.state == Cancelled)
    && (r.state == Running || r.state == Completed ==> r.dispatchAttemptId.Some?)
    && (r.state == Pending || r.state == Recovering ==> r.dispatchAttemptId.None?)
    && (r.dispatchAttemptId.Some? ==> r.dispatchAttemptId.value < supply)
    && r.workingDirectory.Some? && Dispatchable(r.workingDirectory.value)
  }

  ghost predicate TableOk(table: Table, supply: nat) {
    (forall id :: id in table ==> RecordOk(id, table[id], supply)) && KeysUnique(table)
  }

  // ----- Coroutines -----

  /** The record a coroutine holds across a suspension is an earlier version of its own task. */
  ghost predicate LocalOk(runner: Runner, r: TaskRecord, supply: nat) {
    match runner.pc
    case NotStarted => true
    case Sleeping(snapshot) => snapshot.state == Recovering && SameTask(r, snapshot)
      && RecordOk(r.taskId, snapshot, supply)
    case Calling(task, _, _) => task.state == Running && SameTask(r, task) && RecordOk(r.taskId, task, supply)
  }

  ghost predicate RunnersOk(runners: map<Handle, Runner>, table: Table, supply: nat) {
    forall h :: h in runners ==> h.serial < supply && h.taskId in table && LocalOk(runners[h], table[h.taskId], supply)
  }

  ghost predicate BackgroundOk(background: map<TaskId, Handle>, runners: map<Handle, Runner>) {
    forall id :: id in background ==> background[id] in runners && background[id].taskId == id
  }

  /** A stop waits only for coroutines scheduled before it, and has told each of them to cancel. */
  ghost predicate StopOk(phase: Phase, runners: map<Handle, Runner>, supply: nat) {
    phase.Stopping? ==> forall h :: h in phase.waiting ==>
      h.serial < supply && (h in runners ==> runners[h].cancelRequested)
  }

  // ----- The request log -----

  ghost predicate EntryOk(d: Dispatch, table: Table, supply: nat) {
    && d.taskId in table
    && var r := table[d.taskId];
       && d.workerId == r.workerId && d.prompt == r.prompt
       && d.workingDirectory == r.workingDirectory && d.timeoutSeconds == r.timeoutSeconds
       && d.idempotencyKey == r.idempotencyKey
       && d.attemptNumber >= 1 && d.attemptId.Some? && d.attemptId.value < supply
  }

  ghost predicate LogOk(log: seq<Dispatch>, table: Table, supply: nat) {
    forall i :: 0 <= i < |log| ==> EntryOk(log[i], table, supply)
  }

  // ----- The whole -----

  ghost predicate Sane(s: State) {
    match s
    case State(table, runners, background, phase, _, _, log, _, _, supply) =>
      && TableOk(table, supply)
      && RunnersOk(runners, table, supply)
      && BackgroundOk(background, runners)
      && StopOk(phase, runners, supply)
      && LogOk(log, table, supply)
  }

  lemma InitSane(s: State)
    requires Init(s)
    ensures Sane(s)
  {
  }

  // ----- Steps that concern one task -----

  /** From `s` to `s'` nothing changes outside task `id`, which keeps what its submission fixed. */
  ghost predicate Within(s: State, s': State, id: TaskId) {
    && s'.phase == s.phase && s'.deferred == s.deferred && s'.config == s.config && s.supply <= s'.supply
    && s'.boot == s.boot && s'.counters.created == s.counters.created
    && id in s.table && id in s'.table && SameTask(s'.table[id], s.table[id])
    && s'.table == s.table[id := s'.table[id]]
    && s'.runners.Keys <= s.runners.Keys
    && (forall h :: h in s.runners && h.taskId != id ==> h in s'.runners && s'.runners[h] == s.runners[h])
    && (forall t :: t != id ==> (t in s'.background <==> t in s.background))
    && (forall t :: t in s'.background ==> t in s.background && s'.background[t] == s.background[t])
    && (s'.log == s.log || (exists d: Dispatch :: d.taskId == id && s'.log == s.log + [d]))
  }

  /** The coroutines of task `id` are in order after the step. */
  ghost predicate OwnOk(s: State, s': State, id: TaskId)
    requires s'.runners.Keys <= s.runners.Keys && id in s'.table
  {
    && RecordOk(id, s'.table[id], s'.supply)
    && (id in s'.background ==> s'.background[id] in s'.runners)
    && forall h :: h in s'.runners && h.taskId == id ==>
         LocalOk(s'.runners[h], s'.table[id], s'.supply)
           && (s.runners[h].cancelRequested ==> s'.runners[h].cancelRequested)
  }

  lemma RecordKept(id: TaskId, r: TaskRecord, supply: nat, more: nat)
    requires RecordOk(id, r, supply) && supply <= more
    ensures RecordOk(id, r, more)
  {
  }

  lemma LocalKept(runner: Runner, r: TaskRecord, r': TaskRecord, supply: nat, more: nat)
    requires LocalOk(runner, r, supply) && SameTask(r', r) && supply <= more
    ensures LocalOk(runner, r', more)
  {
  }

  lemma RowTableOk(table: Table, id: TaskId, r: TaskRecord, supply: nat, more: nat)
    requires TableOk(table, supply) && supply <= more && id in table && RecordOk(id, r, more) && SameTask(r, table[id])
    ensures TableOk(table[id := r], more)
  {
    var table' := table[id := r];
    forall t | t in table' ensures RecordOk(t, table'[t], more) {
      if t != id {
        RecordKept(t, table[t], supply, more);
      }
    }
  }

  lemma RowLogOk(log: seq<Dispatch>, table: Table, id: TaskId, r: TaskRecord, supply: nat, more: nat)
    requires LogOk(log, table, supply) && supply <= more && id in table && SameTask(r, table[id])
    ensures LogOk(log, table[id := r], more)
  {
    forall i | 0 <= i < |log| ensures EntryOk(log[i], table[id := r], more) {
      assert EntryOk(log[i], table, supply);
    }
  }

  lemma OwnRunnersOk(s: State, s': State, id: TaskId)
    requires RunnersOk(s.runners, s.table, s.supply) && Within(s, s', id) && OwnOk(s, s', id)
    ensures RunnersOk(s'.runners, s'.table, s'.supply)
  {
    forall h | h in s'.runners
      ensures h.serial < s'.supply && h.taskId in s'.table && LocalOk(s'.runners[h], s'.table[h.taskId], s'.supply)
    {
      assert h in s.runners.Keys;
      if h.taskId != id {
        LocalKept(s.runners[h], s.table[h.taskId], s'.table[h.taskId], s.supply, s'.supply);
      }
    }
  }

  lemma OwnBackgroundOk(s: State, s': State, id: TaskId)
    requires BackgroundOk(s.background, s.runners) && Within(s, s', id) && OwnOk(s, s', id)
    ensures BackgroundOk(s'.background, s'.runners)
  {
    forall t | t in s'.background ensures s'.background[t] in s'.runners && s'.background[t].taskId == t {
      assert s.background[t] in s.runners && s.background[t].taskId == t;
    }
  }

  lemma OwnStopOk(s: State, s': State, id: TaskId)
    requires StopOk(s.phase, s.runners, s.supply) && Within(s, s', id) && OwnOk(s, s', id)
    ensures StopOk(s'.phase, s'.runners, s'.supply)
  {
    assert forall h :: h in s'.runners ==> h in s.runners.Keys;
  }

  /** A step within one task whose own parts are in order keeps the whole in order. */
  lemma WithinSane(s: State, s': State, id: TaskId)
    requires Sane(s) && Within(s, s', id) && OwnOk(s, s', id) && s'.log == s.log
    ensures Sane(s')
  {
    RowTableOk(s.table, id, s'.table[id], s.supply, s'.supply);
    RowLogOk(s.log, s.table, id, s'.table[id], s.supply, s'.supply);
    OwnRunnersOk(s, s', id);
    OwnBackgroundOk(s, s', id);
    OwnStopOk(s, s', id);
  }

  lemma OwnRecords(s: State, id: TaskId)
    requires Sane(s) && id in s.table
    ensures RecordOk(id, s.table[id], s.supply)
    ensures forall h :: h in s.runners && h.taskId == id ==> LocalOk(s.runners[h], s.table[id], s.supply)
  {
    assert forall h :: h in s.runners ==> LocalOk(s.runners[h], s.table[h.taskId], s.supply);
  }

  // ----- Settling a record -----

  /** What a settlement may carry: a result with Completed, an error with any other terminal state. */
  ghost predicate Verdict(target: TaskState, error: Option<string>, result: Option<Payload>) {
    Terminal(target) && (result.Some? <==> target == Completed) && (error.Some? <==> target != Completed)
  }

  lemma SettledRecordOk(id: TaskId, r: TaskRecord, target: TaskState, error: Option<string>, result: Option<Payload>,
                        now: Time, supply: nat)
    requires RecordOk(id, r, supply) && Verdict(target, error, result) && target in AllowedTransitions(r.state)
    ensures RecordOk(id, r.Transition(target, now, error, result).value, supply)
  {
  }

  lemma PutIsUpdate(table: Table, id: TaskId, r: TaskRecord)
    requires id in table && r.taskId == id && r.createdAt == table[id].createdAt
    ensures Put(table, r) == table[id := r]
  {
  }

  /** The row after an attempt to settle it. */
  function Outcome(r: TaskRecord, target: TaskState, error: Option<string>, result: Option<Payload>,
                   now: Time): TaskRecord {
    if !Terminal(r.state)
      && target in AllowedTransitions(r.state) then r.Transition(target, now, error, result).value else r
  }

  lemma SettleIs(s: State, id: TaskId, target: TaskState, error: Option<string>, result: Option<Payload>, now: Time)
    requires id in s.table && s.table[id].taskId == id
    ensures var s' := SettleAs(s, id, target, error, result, now);
      s'.(counters := s.counters) == s.(table := s.table[id := Outcome(s.table[id], target, error, result, now)])
      && s'.counters.created == s.counters.created
  {
    var r := Outcome(s.table[id], target, error, result, now);
    PutIsUpdate(s.table, id, r);
    if r == s.table[id] {
      assert s.table[id := r] == s.table;
    }
  }

  /** Rewriting one row, and nothing else that matters here. */
  lemma RowSane(s: State, s': State, id: TaskId, r: TaskRecord)
    requires Sane(s) && id in s.table && RecordOk(id, r, s.supply) && SameTask(r, s.table[id])
    requires s'.(counters := s.counters) == s.(table := s.table[id := r]) && s'.counters.created == s.counters.created
    ensures Sane(s') && Within(s, s', id)
  {
    OwnRecords(s, id);
    WithinSane(s, s', id);
  }

  lemma SettleSane(s: State, id: TaskId, target: TaskState, error: Option<string>, result: Option<Payload>, now: Time)
    requires Sane(s) && id in s.table && Verdict(target, error, result)
    ensures var s' := SettleAs(s, id, target, error, result, now); Sane(s') && Within(s, s', id)
  {
    OwnRecords(s, id);
    SettleIs(s, id, target, error, result, now);
    var r, r' := s.table[id], Outcome(s.table[id], target, error, result, now);
    if r' != r {
      SettledRecordOk(id, r, target, error, result, now, s.supply);
    }
    RowSane(s, SettleAs(s, id, target, error, result, now), id, r');
  }

  ghost predicate Shrunk(runners: map<Handle, Runner>, runners': map<Handle, Runner>,
                         background: map<TaskId, Handle>, background': map<TaskId, Handle>, id: TaskId) {
    && runners'.Keys <= runners.Keys
    && (forall h :: h in runners && h.taskId != id ==> h in runners' && runners'[h] == runners[h])
    && (forall t :: t != id ==> (t in background' <==> t in background))
    && (forall t :: t in background' ==> t in background && background'[t] == background[t])
    && (id in background' ==> background'[id] in runners')
  }

  /** The coroutines of one task change, some perhaps end; the records stay. */
  lemma CoroutinesSane(s: State, s': State, id: TaskId)
    requires Sane(s) && id in s.table && s'.table == s.table && s'.phase == s.phase && s'.supply == s.supply
      && s'.log == s.log
    requires Shrunk(s.runners, s'.runners, s.background, s'.background, id)
    requires s'.deferred == s.deferred && s'.config == s.config && s'.boot == s.boot && s'.counters == s.counters
    requires forall h :: h in s'.runners && h.taskId == id ==>
               LocalOk(s'.runners[h], s.table[id], s.supply)
                 && (s.runners[h].cancelRequested ==> s'.runners[h].cancelRequested)
    ensures Sane(s') && Within(s, s', id)
  {
    assert RecordOk(id, s.table[id], s.supply);
    assert s.table[id := s.table[id]] == s.table;
    WithinSane(s, s', id);
  }

  lemma FinishShrinks(s: State, h: Handle)
    requires BackgroundOk(s.background, s.runners)
    ensures Shrunk(s.runners, Finish(s, h).runners, s.background, Finish(s, h).background, h.taskId)
  {
  }

  lemma UpdateShrinks(runners: map<Handle, Runner>, background: map<TaskId, Handle>, h: Handle, runner: Runner)
    requires BackgroundOk(background, runners) && h in runners
    ensures Shrunk(runners, runners[h := runner], background, background, h.taskId)
  {
    assert runners[h := runner].Keys == runners.Keys;
  }

  lemma FinishSane(s: State, h: Handle)
    requires Sane(s) && h in s.runners
    ensures Sane(Finish(s, h)) && Within(s, Finish(s, h), h.taskId)
  {
    FinishShrinks(s, h);
    CoroutinesSane(s, Finish(s, h), h.taskId);
  }

  lemma SetPcSane(s: State, h: Handle, pc: Pc)
    requires Sane(s) && h in s.runners && LocalOk(s.runners[h].(pc := pc), s.table[h.taskId], s.supply)
    ensures Sane(SetPc(s, h, pc)) && Within(s, SetPc(s, h, pc), h.taskId)
  {
    UpdateShrinks(s.runners, s.background, h, s.runners[h].(pc := pc));
    CoroutinesSane(s, SetPc(s, h, pc), h.taskId);
  }

  lemma WithinTrans(s: State, s1: State, s2: State, id: TaskId)
    requires Within(s, s1, id) && Within(s1, s2, id) && s1.log == s.log
    ensures Within(s, s2, id)
  {
  }

  lemma WithinItself(s: State, id: TaskId)
    requires id in s.table
    ensures Within(s, s, id)
  {
    assert s.table[id := s.table[id]] == s.table;
  }

  lemma RequestCancelSane(s: State, id: TaskId)
    requires Sane(s) && id in s.table
    ensures Sane(RequestCancel(s, id)) && Within(s, RequestCancel(s, id), id)
  {
    if id in s.background {
      var h := s.background[id];
      UpdateShrinks(s.runners, s.background, h, s.runners[h].(cancelRequested := true));
      CoroutinesSane(s, RequestCancel(s, id), id);
    } else {
      WithinItself(s, id);
    }
  }

  lemma CancelSane(s: State, id: TaskId, now: Time)
    requires Sane(s) && id in s.table
    ensures Sane(Cancel(s, id, now)) && Within(s, Cancel(s, id, now), id)
  {
    RequestCancelSane(s, id);
    var s1 := RequestCancel(s, id);
    SettleSane(s1, id, Cancelled, Some(CANCELLED_BY_CALLER), None, now);
    WithinTrans(s, s1, SettleAs(s1, id, Cancelled, Some(CANCELLED_BY_CALLER), None, now), id);
    WithinItself(s, id);
  }

  /** A settlement and then the coroutine's end, as every handler of `_run_task` has it. */
  lemma SettleFinishSane(s: State, h: Handle, target: TaskState, error: Option<string>, result: Option<Payload>,
                         now: Time)
    requires Sane(s) && h in s.runners && Verdict(target, error, result)
    ensures var s' := Finish(SettleAs(s, h.taskId, target, error, result, now), h); Sane(s') && Within(s, s', h.taskId)
  {
    SettleSane(s, h.taskId, target, error, result, now);
    var s1 := SettleAs(s, h.taskId, target, error, result, now);
    FinishSane(s1, h);
    WithinTrans(s, s1, Finish(s1, h), h.taskId);
  }

  /** What the handler of a reply asks for: the result, or the failure that a refused completion turns into. */
  function ReplyFailure(r: TaskRecord, reply: Reply): Option<Failure> {
    match reply
    case Threw(failure) => Some(failure)
    case Returned(_) =>
      if Completed in AllowedTransitions(r.state) then None
      else Some(Raised(InvalidTransition(r.state, Completed).Message(), "InvalidTransition"))
  }

  lemma ReceiveIs(s: State, h: Handle, reply: Reply, now: Time)
    requires h in s.runners && Open(s, h.taskId)
    ensures var failure := ReplyFailure(s.table[h.taskId], reply);
      Receive(s, h, reply, now) == Finish(
        if failure.Some? then HandleFailure(s, h.taskId, failure.value, now)
        else SettleAs(s, h.taskId, Completed, None, Some(reply.result), now), h)
  {
  }

  lemma ReceiveSane(s: State, h: Handle, reply: Reply, now: Time)
    requires Sane(s) && h in s.runners
    ensures Sane(Receive(s, h, reply, now)) && Within(s, Receive(s, h, reply, now), h.taskId)
  {
    if Open(s, h.taskId) {
      ReceiveIs(s, h, reply, now);
      var failure := ReplyFailure(s.table[h.taskId], reply);
      if failure.Some? {
        SettleFinishSane(s, h, FailureTarget(failure.value), Some(FailureMessage(failure.value)), None, now);
      } else {
        SettleFinishSane(s, h, Completed, None, Some(reply.result), now);
      }
    } else {
      FinishSane(s, h);
    }
  }

  // ----- Taking an attempt -----

  /** The record as line 170 builds it: from Pending, or from Recovering by way of Pending. */
  function Attempted(task: TaskRecord, attemptId: AttemptId, now: Time): TaskRecord
    requires task.state == Pending || task.state == Recovering
  {
    var pending := if task.state == Recovering then task.Transition(Pending, now, None, None).value else task;
    pending.NextAttempt(attemptId, now).Transition(Running, now, None, None).value
  }

  lemma AttemptedOk(id: TaskId, task: TaskRecord, supply: nat, now: Time)
    requires RecordOk(id, task, supply) && (task.state == Pending || task.state == Recovering)
    ensures var r := Attempted(task, supply, now);
            RecordOk(id, r, supply + 1) && SameTask(r, task) && r.state == Running
            && r.attemptCount == task.attemptCount + 1 && r.dispatchAttemptId == Some(supply)
    ensures task.attemptCount + 1 >= 2 <==> task.state == Recovering
  {
  }

  /** A record the coroutine may hold when it comes to its attempt. */
  ghost predicate Takeable(s: State, h: Handle, task: TaskRecord) {
    && h in s.runners && h.taskId in s.table
    && RecordOk(h.taskId, task, s.supply) && SameTask(s.table[h.taskId], task)
    && (task.state == Pending || task.state == Recovering)
  }

  function Taken(s: State, h: Handle, task: TaskRecord, now: Time): State
    requires h in s.runners && (task.state == Pending || task.state == Recovering)
  {
    var r := Attempted(task, s.supply, now);
    s.(table := s.table[h.taskId := r], supply := s.supply + 1,
       runners := s.runners[h := s.runners[h].(pc := Calling(r, task.state == Recovering, false))])
  }

  lemma SameKeyNoConflict(table: Table, id: TaskId, r: TaskRecord, supply: nat)
    requires TableOk(table, supply) && id in table && r.taskId == id && r.idempotencyKey == table[id].idempotencyKey
    ensures !Conflicts(table, r)
  {
  }

  lemma TakeAttemptIs(s: State, h: Handle, task: TaskRecord, now: Time)
    requires TableOk(s.table, s.supply) && Takeable(s, h, task)
    ensures TakeAttempt(s, h, task, now) == Taken(s, h, task, now)
  {
    var r := Attempted(task, s.supply, now);
    AttemptedOk(h.taskId, task, s.supply, now);
    SameKeyNoConflict(s.table, h.taskId, r, s.supply);
    PutIsUpdate(s.table, h.taskId, r);
  }

  lemma TakenWithin(s: State, h: Handle, task: TaskRecord, now: Time)
    requires Takeable(s, h, task) && BackgroundOk(s.background, s.runners)
    ensures Within(s, Taken(s, h, task, now), h.taskId)
    ensures h.taskId in s.background ==> s.background[h.taskId] in Taken(s, h, task, now).runners
  {
    assert Taken(s, h, task, now).runners.Keys == s.runners.Keys;
  }

  lemma TakenLocals(s: State, h: Handle, task: TaskRecord, now: Time)
    requires RunnersOk(s.runners, s.table, s.supply) && Takeable(s, h, task)
    ensures var s' := Taken(s, h, task, now);
      forall g :: g in s'.runners && g.taskId == h.taskId ==> LocalOk(s'.runners[g], s'.table[h.taskId], s'.supply)
  {
    AttemptedOk(h.taskId, task, s.supply, now);
    var s' := Taken(s, h, task, now);
    forall g | g in s'.runners && g.taskId == h.taskId ensures LocalOk(s'.runners[g], s'.table[h.taskId], s'.supply) {
      if g != h {
        LocalKept(s.runners[g], s.table[h.taskId], s'.table[h.taskId], s.supply, s'.supply);
      }
    }
  }

  lemma TakenSane(s: State, h: Handle, task: TaskRecord, now: Time)
    requires Sane(s) && Takeable(s, h, task)
    ensures Sane(Taken(s, h, task, now)) && Within(s, Taken(s, h, task, now), h.taskId)
  {
    AttemptedOk(h.taskId, task, s.supply, now);
    TakenLocals(s, h, task, now);
    TakenWithin(s, h, task, now);
    WithinSane(s, Taken(s, h, task, now), h.taskId);
  }

  /** A coroutine that finds its task already Running goes on with that attempt; otherwise it takes a new one. */
  lemma AttemptSane(s: State, h: Handle, task: TaskRecord, now: Time)
    requires Sane(s) && h in s.runners && RecordOk(h.taskId, task, s.supply) && SameTask(s.table[h.taskId], task)
    requires !Terminal(task.state)
    ensures Sane(TakeAttempt(s, h, task, now)) && Within(s, TakeAttempt(s, h, task, now), h.taskId)
  {
    if task.state == Running {
      SetPcSane(s, h, Calling(task, false, false));
    } else {
      assert Takeable(s, h, task);
      TakeAttemptIs(s, h, task, now);
      TakenSane(s, h, task, now);
    }
  }

  /** With its directory in place the body is the attempt. */
  lemma BodyAttempts(s: State, h: Handle, task: TaskRecord, front: Frontmatter, now: Time)
    requires h in s.runners && task.workingDirectory.Some?
    ensures Body(s, h, task, front, now) == TakeAttempt(s, h, task, now)
  {
  }

  /** A first step ends the coroutine, puts it to sleep, or comes to the attempt. */
  lemma FirstIsOneOf(s: State, h: Handle, front: Frontmatter, now: Time)
    requires h in s.runners && (Open(s, h.taskId) ==> s.table[h.taskId].workingDirectory.Some?)
    ensures First(s, h, front, now)
      == if s.runners[h].cancelRequested || !Open(s, h.taskId) then Finish(s, h)
         else if s.config.recovery.delaySeconds != 0.0
           && s.table[h.taskId].state == Recovering then SetPc(s, h, Sleeping(s.table[h.taskId]))
         else TakeAttempt(s, h, s.table[h.taskId], now)
  {
  }

  lemma FirstSane(s: State, h: Handle, front: Frontmatter, now: Time)
    requires Sane(s) && h in s.runners
    ensures Sane(First(s, h, front, now)) && Within(s, First(s, h, front, now), h.taskId)
  {
    OwnRecords(s, h.taskId);
    FirstIsOneOf(s, h, front, now);
    if s.runners[h].cancelRequested || !Open(s, h.taskId) {
      FinishSane(s, h);
    } else if s.config.recovery.delaySeconds != 0.0 && s.table[h.taskId].state == Recovering {
      SetPcSane(s, h, Sleeping(s.table[h.taskId]));
    } else {
      AttemptSane(s, h, s.table[h.taskId], now);
    }
  }

  /** A sleeper holds an earlier version of its own record. */
  lemma SleeperHolds(s: State, h: Handle)
    requires Sane(s) && h in s.runners && s.runners[h].pc.Sleeping?
    ensures var task := s.runners[h].pc.snapshot;
      && h.taskId in s.table && RecordOk(h.taskId, task, s.supply) && SameTask(s.table[h.taskId], task)
        && task.state == Recovering
      && Takeable(s, h, task) && task.workingDirectory.Some?
  {
    OwnRecords(s, h.taskId);
  }

  lemma SleeperAttemptSane(s: State, h: Handle, now: Time)
    requires Sane(s) && h in s.runners && s.runners[h].pc.Sleeping?
    ensures s.runners[h].pc.snapshot.workingDirectory.Some?
    ensures var s' := TakeAttempt(s, h, s.runners[h].pc.snapshot, now); Sane(s') && Within(s, s', h.taskId)
  {
    SleeperHolds(s, h);
    AttemptSane(s, h, s.runners[h].pc.snapshot, now);
  }

  lemma WakeSane(s: State, h: Handle, front: Frontmatter, now: Time)
    requires Sane(s) && h in s.runners && s.runners[h].pc.Sleeping?
    ensures Sane(Body(s, h, s.runners[h].pc.snapshot, front, now))
      && Within(s, Body(s, h, s.runners[h].pc.snapshot, front, now), h.taskId)
  {
    SleeperAttemptSane(s, h, now);
    BodyAttempts(s, h, s.runners[h].pc.snapshot, front, now);
  }

  // ----- Sending -----

  lemma SendAppends(s: State, s': State, id: TaskId, d: Dispatch)
    requires Sane(s') && Within(s, s', id) && s'.log == s.log && d.taskId == id && EntryOk(d, s'.table, s'.supply)
    ensures Sane(s'.(log := s.log + [d])) && Within(s, s'.(log := s.log + [d]), id)
  {
  }

  lemma SendSane(s: State, h: Handle)
    requires Sane(s) && h in s.runners && s.runners[h].pc.Calling?
    ensures Sane(Send(s, h)) && Within(s, Send(s, h), h.taskId)
  {
    OwnRecords(s, h.taskId);
    var pc := s.runners[h].pc;
    SetPcSane(s, h, pc.(sent := true));
    SendAppends(s, SetPc(s, h, pc.(sent := true)), h.taskId, DispatchOf(pc.task, pc.recoveryAttempt));
  }

  // ----- One step about one task -----

  predicate Own(l: Label) {
    l.FirstStep? || l.WakeStep? || l.SendStep? || l.ReceiveStep? || l.InterruptStep?
  }

  lemma OwnStepSane(s: State, l: Label)
    requires Sane(s) && Enabled(s, l) && Own(l)
    ensures Sane(Next(s, l)) && Within(s, Next(s, l), l.h.taskId)
  {
    match l {
      case FirstStep(h, front, now) => FirstSane(s, h, front, now);
      case WakeStep(h, front, now) => WakeSane(s, h, front, now);
      case SendStep(h) => SendSane(s, h);
      case ReceiveStep(h, reply, now) => ReceiveSane(s, h, reply, now);
      case InterruptStep(h, now) => SettleFinishSane(s, h, Cancelled, Some(BACKGROUND_CANCELLED), None, now);
    }
  }

  // ----- Submission -----

  lemma AdmittedDirectory(s: State, r: Request)
    requires Admission(s, r).Ok?
    ensures r.workerId in s.config.workers && Dispatchable(Admission(s, r).value)
  {
    ResolvedIsDispatchable(r.front, s.config.workers[r.workerId].writePaths);
  }

  lemma DirectedRecordOk(s: State, r: Request, directory: string)
    requires r.workerId in s.config.workers && Dispatchable(directory)
    ensures RecordOk(s.supply, NewRecord(s, r, directory), s.supply + 1)
  {
  }

  lemma NewRecordOk(s: State, r: Request)
    requires Creates(s, r)
    ensures RecordOk(s.supply, NewRecord(s, r, Admission(s, r).value), s.supply + 1)
  {
    AdmittedDirectory(s, r);
    DirectedRecordOk(s, r, Admission(s, r).value);
  }

  lemma SupplyGrows(s: State, more: nat)
    requires Sane(s) && s.supply <= more
    ensures Sane(s.(supply := more))
  {
    forall id | id in s.table ensures RecordOk(id, s.table[id], more) {
      RecordKept(id, s.table[id], s.supply, more);
    }
    forall h | h in s.runners
      ensures h.serial < more && h.taskId in s.table && LocalOk(s.runners[h], s.table[h.taskId], more) {
      LocalKept(s.runners[h], s.table[h.taskId], s.table[h.taskId], s.supply, more);
    }
    forall i | 0 <= i < |s.log| ensures EntryOk(s.log[i], s.table, more) {
      assert EntryOk(s.log[i], s.table, s.supply);
    }
  }

  lemma NewIdUnused(table: Table, supply: nat)
    requires TableOk(table, supply)
    ensures supply !in table
  {
    assert forall id :: id in table ==> RecordOk(id, table[id], supply);
  }

  /** What a submission that creates a task does, in closed form. */
  lemma CreateIs(s: State, r: Request)
    requires Sane(s) && Creates(s, r)
    ensures var id, task := s.supply, NewRecord(s, r, Admission(s, r).value);
      && id !in s.table && Handle(id, id) !in s.runners && RecordOk(id, task, s.supply + 1)
      && Submit(s, r) == s.(table := s.table[id := task],
                            counters := s.counters.(created := Bumped(s.counters.created, (r.workerId, Async))),
                            runners := s.runners[Handle(id, id) := Runner(NotStarted, false)],
                            background := s.background[id := Handle(id, id)],
                            supply := s.supply + 1)
  {
    NewRecordOk(s, r);
    NewIdUnused(s.table, s.supply);
  }

  lemma CreateTable(table: Table, task: TaskRecord, supply: nat)
    requires TableOk(table, supply + 1) && supply !in table && RecordOk(supply, task, supply + 1)
      && !KeyHeld(table, task.idempotencyKey)
    ensures TableOk(table[supply := task], supply + 1)
  {
  }

  lemma CreateLog(log: seq<Dispatch>, table: Table, task: TaskRecord, supply: nat)
    requires LogOk(log, table, supply + 1) && supply !in table
    ensures LogOk(log, table[supply := task], supply + 1)
  {
    forall i | 0 <= i < |log| ensures EntryOk(log[i], table[supply := task], supply + 1) {
      assert EntryOk(log[i], table, supply + 1);
    }
  }

  lemma CreateRunners(runners: map<Handle, Runner>, table: Table, task: TaskRecord, id: TaskId)
    requires RunnersOk(runners, table, id + 1) && id !in table
    ensures RunnersOk(runners[Handle(id, id) := Runner(NotStarted, false)], table[id := task], id + 1)
  {
  }

  lemma CreateBackground(runners: map<Handle, Runner>, background: map<TaskId, Handle>, id: TaskId)
    requires BackgroundOk(background, runners)
    ensures BackgroundOk(background[id := Handle(id, id)], runners[Handle(id, id) := Runner(NotStarted, false)])
  {
  }

  lemma CreateStop(phase: Phase, runners: map<Handle, Runner>, id: TaskId)
    requires StopOk(phase, runners, id + 1) && (phase.Stopping? ==> Handle(id, id) !in phase.waiting)
    ensures StopOk(phase, runners[Handle(id, id) := Runner(NotStarted, false)], id + 1)
  {
  }

  lemma SaneParts(s: State)
    ensures Sane(s) <==>
      TableOk(s.table, s.supply) && RunnersOk(s.runners, s.table, s.supply) && BackgroundOk(s.background, s.runners)
        && StopOk(s.phase, s.runners, s.supply) && LogOk(s.log, s.table, s.supply)
  {
  }

  lemma CreatedParts(s: State, id: TaskId, task: TaskRecord)
    requires Sane(s) && s.supply == id + 1 && id !in s.table && RecordOk(id, task, id + 1)
      && !KeyHeld(s.table, task.idempotencyKey)
    requires s.phase.Stopping? ==> Handle(id, id) !in s.phase.waiting
    ensures var table, runners := s.table[id := task], s.runners[Handle(id, id) := Runner(NotStarted, false)];
      && TableOk(table, s.supply) && RunnersOk(runners, table, s.supply)
      && BackgroundOk(s.background[id := Handle(id, id)], runners)
      && StopOk(s.phase, runners, s.supply) && LogOk(s.log, table, s.supply)
  {
    SaneParts(s);
    CreateTable(s.table, task, id);
    CreateLog(s.log, s.table, task, id);
    CreateRunners(s.runners, s.table, task, id);
    CreateBackground(s.runners, s.background, id);
    CreateStop(s.phase, s.runners, id);
  }

  lemma CreateSane(s: State, s': State, id: TaskId, task: TaskRecord)
    requires Sane(s) && s.supply == id + 1 && id !in s.table && RecordOk(id, task, id + 1)
      && !KeyHeld(s.table, task.idempotencyKey)
    requires s' == s.(table := s.table[id := task], counters := s'.counters,
                      runners := s.runners[Handle(id, id) := Runner(NotStarted, false)], background :=
                        s.background[id := Handle(id, id)])
    requires s.phase.Stopping? ==> Handle(id, id) !in s.phase.waiting
    ensures Sane(s')
  {
    CreatedParts(s, id, task);
    SaneParts(s');
  }

  lemma SubmitSane(s: State, r: Request)
    requires Sane(s)
    ensures Sane(Submit(s, r))
  {
    if Creates(s, r) {
      CreateIs(s, r);
      SupplyGrows(s, s.supply + 1);
      CreateSane(s.(supply := s.supply + 1), Submit(s, r), s.supply, NewRecord(s, r, Admission(s, r).value));
    }
  }

  // ----- Start, stop, crash, reload -----

  lemma MarkedOk(id: TaskId, r: TaskRecord, now: Time, supply: nat)
    requires RecordOk(id, r, supply)
    ensures RecordOk(id, Marked(r, now), supply)
    ensures Terminal(r.state) || r.state == Pending ==> Marked(r, now) == r
    ensures !Terminal(r.state) && r.state != Pending ==> Marked(r, now).state == Recovering
    ensures SameTask(Marked(r, now), r) && Marked(r, now).attemptCount == r.attemptCount
  {
  }

  /** The coroutines after a start: those there were, and a fresh one for each scheduled id. */
  ghost predicate Joined(runners: map<Handle, Runner>, runners': map<Handle, Runner>, ids: set<TaskId>, serial: nat) {
    && (forall h :: h in runners' <==> h in runners || (h.taskId in ids && h.serial == serial))
    && (forall h :: h in runners' && h.serial == serial ==> runners'[h] == Runner(NotStarted, false))
    && (forall h :: h in runners ==> h.serial < serial && runners'[h] == runners[h])
  }

  ghost predicate Registered(background: map<TaskId, Handle>, background': map<TaskId, Handle>, ids: set<TaskId>,
                             serial: nat) {
    && (forall id :: id in background' <==> id in background || id in ids)
    && forall id :: id in background' ==> background'[id] == if id in ids then Handle(id, serial) else background[id]
  }

  lemma StartShape(s: State, now: Time)
    requires RunnersOk(s.runners, s.table, s.supply) && s.phase == Idle
    ensures var ids := ToSchedule(s, MarkRecovering(s.table, now));
            Joined(s.runners, Start(s, now).runners, ids, s.supply)
              && Registered(s.background, Start(s, now).background, ids, s.supply)
  {
  }

  lemma MarkTableOk(table: Table, now: Time, supply: nat)
    requires TableOk(table, supply)
    ensures TableOk(MarkRecovering(table, now), supply)
  {
    forall id | id in table ensures RecordOk(id, Marked(table[id], now), supply) {
      MarkedOk(id, table[id], now, supply);
    }
    MarkKeepsKeys(table, now);
  }

  lemma MarkLogOk(log: seq<Dispatch>, table: Table, now: Time, supply: nat)
    requires LogOk(log, table, supply)
    ensures LogOk(log, MarkRecovering(table, now), supply)
  {
    forall i | 0 <= i < |log| ensures EntryOk(log[i], MarkRecovering(table, now), supply) {
      assert EntryOk(log[i], table, supply);
    }
  }

  lemma JoinedOk(runners: map<Handle, Runner>, runners': map<Handle, Runner>, ids: set<TaskId>, table: Table,
                 now: Time, supply: nat)
    requires TableOk(table, supply) && RunnersOk(runners, table, supply) && Joined(runners, runners', ids, supply)
      && ids <= table.Keys
    ensures RunnersOk(runners', MarkRecovering(table, now), supply + 1)
  {
    forall h | h in runners'
      ensures h.serial < supply + 1 && h.taskId in table
        && LocalOk(runners'[h], Marked(table[h.taskId], now), supply + 1)
    {
      if h in runners {
        MarkedOk(h.taskId, table[h.taskId], now, supply);
        LocalKept(runners[h], table[h.taskId], Marked(table[h.taskId], now), supply, supply + 1);
      } else {
        assert runners'[h].pc.NotStarted?;
      }
    }
  }

  lemma JoinedBackground(runners: map<Handle, Runner>, runners': map<Handle, Runner>, background: map<TaskId, Handle>,
                         background': map<TaskId, Handle>, ids: set<TaskId>, serial: nat)
    requires BackgroundOk(background, runners) && Joined(runners, runners', ids, serial)
      && Registered(background, background', ids, serial)
    ensures BackgroundOk(background', runners')
  {
  }

  lemma ServingSane(s: State)
    requires s.phase == Serving && TableOk(s.table, s.supply) && RunnersOk(s.runners, s.table, s.supply)
    requires BackgroundOk(s.background, s.runners) && LogOk(s.log, s.table, s.supply)
    ensures Sane(s)
  {
  }

  lemma GrownParts(s: State, more: nat)
    requires Sane(s) && s.supply <= more
    ensures TableOk(s.table, more) && LogOk(s.log, s.table, more)
  {
    SupplyGrows(s, more);
  }

  lemma MarkedParts(s: State, now: Time)
    requires Sane(s)
    ensures TableOk(MarkRecovering(s.table, now), s.supply + 1)
      && LogOk(s.log, MarkRecovering(s.table, now), s.supply + 1)
  {
    GrownParts(s, s.supply + 1);
    MarkTableOk(s.table, now, s.supply + 1);
    MarkLogOk(s.log, s.table, now, s.supply + 1);
  }

  lemma JoinedParts(s: State, runners: map<Handle, Runner>, background: map<TaskId, Handle>, ids: set<TaskId>,
                    now: Time)
    requires Sane(s) && ids <= s.table.Keys
    requires Joined(s.runners, runners, ids, s.supply) && Registered(s.background, background, ids, s.supply)
    ensures RunnersOk(runners, MarkRecovering(s.table, now), s.supply + 1) && BackgroundOk(background, runners)
  {
    JoinedOk(s.runners, runners, ids, s.table, now, s.supply);
    JoinedBackground(s.runners, runners, s.background, background, ids, s.supply);
  }

  lemma StartedSane(s: State, s': State, ids: set<TaskId>, now: Time)
    requires Sane(s) && ids <= s.table.Keys
    requires s'.phase == Serving && s'.log == s.log && s'.supply == s.supply + 1
      && s'.table == MarkRecovering(s.table, now)
    requires Joined(s.runners, s'.runners, ids, s.supply) && Registered(s.background, s'.background, ids, s.supply)
    ensures Sane(s')
  {
    MarkedParts(s, now);
    JoinedParts(s, s'.runners, s'.background, ids, now);
    ServingSane(s');
  }

  lemma StartSane(s: State, now: Time)
    requires Sane(s)
    ensures Sane(Start(s, now))
  {
    if s.phase == Idle {
      StartShape(s, now);
      StartedSane(s, Start(s, now), ToSchedule(s, MarkRecovering(s.table, now)), now);
    }
  }

  lemma FlaggedOk(runners: map<Handle, Runner>, handles: set<Handle>, table: Table, supply: nat)
    requires RunnersOk(runners, table, supply)
    ensures RunnersOk(Flagged(runners, handles), table, supply)
  {
    forall h | h in runners ensures LocalOk(Flagged(runners, handles)[h], table[h.taskId], supply) {
      assert LocalOk(runners[h], table[h.taskId], supply);
    }
  }

  lemma HandlesLive(s: State)
    requires BackgroundOk(s.background, s.runners)
    ensures forall h :: h in BackgroundHandles(s) ==>
      h in s.runners && h.taskId in s.background && s.background[h.taskId] == h
  {
  }

  lemma StopBeginSane(s: State)
    requires Sane(s)
    ensures Sane(StopBegin(s))
  {
    if s.phase == Serving && BackgroundHandles(s) != {} {
      FlaggedOk(s.runners, BackgroundHandles(s), s.table, s.supply);
      HandlesLive(s);
    }
  }

  lemma BackgroundIsHandled(s: State)
    ensures forall id :: id in s.background ==> s.background[id] in BackgroundHandles(s)
  {
  }

  // ----- Every step -----

  lemma ControlSane(s: State, l: Label)
    requires Sane(s) && Enabled(s, l) && (l.StopEndStep? || l.CrashStep? || l.ReloadStep? || l.SwitchStoreStep?)
    ensures Sane(Next(s, l))
  {
  }

  /** Every step of every run, clean or not, keeps the state sane. */
  lemma StepSane(s: State, l: Label)
    requires Sane(s) && Enabled(s, l)
    ensures Sane(Next(s, l))
  {
    if Own(l) {
      OwnStepSane(s, l);
    } else {
      match l {
        case SubmitStep(request) => SubmitSane(s, request);
        case CancelStep(id, now) => if id in s.table { CancelSane(s, id, now); }
        case StartStep(now) => StartSane(s, now);
        case StopBeginStep => StopBeginSane(s);
        case _ => ControlSane(s, l);
      }
    }
  }

  lemma {:induction false} RunSane(run: Run, i: nat)
    requires IsRun(run) && i < |run.states|
    ensures Sane(run.states[i])
  {
    if i == 0 {
      InitSane(run.states[0]);
    } else {
      RunSane(run, i - 1);
      assert StepAt(run, i - 1);
      StepSane(run.states[i - 1], run.labels[i - 1]);
    }
  }

  lemma StepFacts(run: Run, i: nat)
    requires IsRun(run) && i < |run.labels|
    ensures Sane(run.states[i]) && Enabled(run.states[i], run.labels[i])
      && run.states[i + 1] == Next(run.states[i], run.labels[i])
  {
    RunSane(run, i);
    assert StepAt(run, i);
  }
}
