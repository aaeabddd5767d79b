/**
 The life of one task: its record, its coroutine and its requests, through the steps of a run in
 which every start finds the task *ready*. A start that finds a task ready schedules no second
 coroutine for it; one that finds it *clean* does not move its record from under its coroutine either.
 */
module TaskLife {
  import opened Wrappers
  import opened TaskStates
  import opened TaskTable
  import opened PathPolicy
  import opened Protocol
  import opened Invariant

  // ----- Versions of a record -----

  /** A record's next version: same task, an allowed edge or none, no attempt lost, and terminal means final. */
  ghost predicate Advances(r: TaskRecord, r': TaskRecord) {
    && SameTask(r', r)
    && (r'.state == r.state || r'.state in AllowedTransitions(r.state))
    && r.attemptCount <= r'.attemptCount
    && (Terminal(r.state) ==> r' == r)
  }

  lemma OutcomeAdvances(r: TaskRecord, target: TaskState, error: Option<string>, result: Option<Payload>, now: Time)
    ensures var r' := Outcome(r, target, error, result, now);
      && Advances(r, r') && SameAttempt(r', r)
      && (r' == r || r'.state == target)
      && (r'.state == target || Terminal(r.state) || target !in AllowedTransitions(r.state))
  {
  }

  lemma AttemptedAdvances(task: TaskRecord, attemptId: AttemptId, now: Time)
    requires task.state == Pending || task.state == Recovering
    ensures Advances(task, Attempted(task, attemptId, now))
  {
  }

  // ----- The invariant of one task -----

  /** A coroutine that a stop in progress is waiting for, while there is a stop; any, while serving. */
  ghost predicate Held(phase: Phase, h: Handle) {
    match phase
    case Idle => false
    case Serving => true
    case Stopping(waiting) => h in waiting
  }

  ghost predicate Awaited(phase: Phase, h: Handle) {
    phase.Stopping? && h in phase.waiting
  }

  /**
   How the coroutine's local view relates to the stored record. Only a start that was ready but not
   clean leaves a coroutine in the worker call over a record that has been made Recovering.
   */
  ghost predicate Faces(runner: Runner, r: TaskRecord, clean: bool) {
    match runner.pc
    case NotStarted => r.state != Running
    case Sleeping(snapshot) => r == snapshot || (Terminal(r.state) && runner.cancelRequested)
    case Calling(task, recoveryAttempt, _) =>
      && task.attemptCount == r.attemptCount
      && (recoveryAttempt <==> task.attemptCount >= 2)
      && (r == task || Terminal(r.state) || (!clean && r.state == Recovering))
      && (clean ==> SameAttempt(r, task))
  }

  /**
   Outside a stop only the caller's cancel raises the flag, and that makes the record terminal; only
   coroutines of the current start work on a Recovering record; and while started, the coroutine of an
   open record is registered, so a cancel reaches it.
   */
  ghost predicate Placed(phase: Phase, background: map<TaskId, Handle>, h: Handle, runner: Runner, r: TaskRecord) {
    && (runner.cancelRequested ==> Terminal(r.state) || Awaited(phase, h))
    && (r.state == Recovering ==> Held(phase, h))
    && (phase != Idle && !Terminal(r.state) ==> h.taskId in background)
  }

  /** An attempt that the log has not seen: later than every request sent for the task. */
  ghost predicate Fresh(log: seq<Dispatch>, id: TaskId, task: TaskRecord) {
    task.dispatchAttemptId.Some?
    && forall i :: 0 <= i < |log| && log[i].taskId == id ==>
         log[i].attemptId.Some? && log[i].attemptId.value < task.dispatchAttemptId.value
           && log[i].attemptNumber < task.attemptCount
  }

  ghost predicate CoroutineOk(s: State, h: Handle, clean: bool)
    requires h in s.runners && h.taskId in s.table
  {
    var runner, r := s.runners[h], s.table[h.taskId];
    && Faces(runner, r, clean) && Placed(s.phase, s.background, h, runner, r)
    && (runner.pc.Calling? && !runner.pc.sent ==> Fresh(s.log, h.taskId, runner.pc.task))
  }

  ghost predicate OneRunner(runners: map<Handle, Runner>, id: TaskId) {
    forall g, h :: g in runners && h in runners && g.taskId == id && h.taskId == id ==> g == h
  }

  /** An open record is not forgotten. */
  ghost predicate Covered(s: State, id: TaskId, clean: bool)
    requires id in s.table
  {
    && (s.phase != Idle && s.table[id].state == Running ==> id in s.background)
    && (clean && s.phase == Serving && Open(s, id) ==>
      id in s.background || (s.table[id].state == Recovering && id in s.deferred))
  }

  /** The requests sent for the task, in order: attempts up to the record's count, each later than the one before. */
  ghost predicate EntriesOk(log: seq<Dispatch>, id: TaskId, top: nat) {
    && (forall i :: 0 <= i < |log| && log[i].taskId == id ==>
          log[i].attemptId.Some? && 1 <= log[i].attemptNumber <= top
            && (log[i].recoveryAttempt <==> log[i].attemptNumber >= 2))
    && forall i, j :: 0 <= i < j < |log| && log[i].taskId == id && log[j].taskId == id ==>
          log[i].attemptNumber < log[j].attemptNumber && log[i].attemptId.value < log[j].attemptId.value
  }

  function Stored(s: State, id: TaskId): Option<TaskRecord> {
    if id in s.table then Some(s.table[id]) else None
  }

  ghost predicate TaskInv(s: State, id: TaskId, clean: bool) {
    match Stored(s, id)
    case None => true
    case Some(r) =>
      && OneRunner(s.runners, id)
      && (forall h :: h in s.runners && h.taskId == id ==> CoroutineOk(s, h, clean))
      && Covered(s, id, clean)
      && EntriesOk(s.log, id, r.attemptCount)
  }

  // ----- What a start must find -----

  /** Each live coroutine of an open record is registered; when clean, its record is still Pending as well. */
  ghost predicate Ready(s: State, id: TaskId, clean: bool) {
    forall h :: h in s.runners && h.taskId == id ==>
      id in s.table && (Terminal(s.table[id].state) || (id in s.background && (clean ==> s.table[id].state == Pending)))
  }

  ghost predicate Orderly(s: State, l: Label, id: TaskId, clean: bool) {
    l.StartStep? && s.phase == Idle ==> Ready(s, id, clean)
  }

  /** What a step does to the task: the invariant again, and an advance of its record. */
  ghost predicate Good(s: State, s': State, id: TaskId, clean: bool) {
    TaskInv(s', id, clean) && (id in s.table ==> id in s'.table && Advances(s.table[id], s'.table[id]))
  }

  // ----- Steps about other tasks -----

  lemma OtherEntries(log: seq<Dispatch>, d: Dispatch, id: TaskId, top: nat)
    requires EntriesOk(log, id, top) && d.taskId != id
    ensures EntriesOk(log + [d], id, top)
  {
  }

  lemma OtherCoroutine(s: State, s': State, t: TaskId, h: Handle, clean: bool)
    requires Within(s, s', t) && h.taskId != t && h in s.runners && h.taskId in s.table && CoroutineOk(s, h, clean)
    ensures h in s'.runners && h.taskId in s'.table && CoroutineOk(s', h, clean)
  {
  }

  lemma OtherStep(s: State, s': State, t: TaskId, id: TaskId, clean: bool)
    requires TaskInv(s, id, clean) && Within(s, s', t) && t != id
    ensures Good(s, s', id, clean)
  {
    if id in s'.table {
      forall h | h in s'.runners && h.taskId == id ensures CoroutineOk(s', h, clean) {
        assert h in s.runners.Keys;
        OtherCoroutine(s, s', t, h, clean);
      }
      if s'.log != s.log {
        var d: Dispatch :| d.taskId == t && s'.log == s.log + [d];
        OtherEntries(s.log, d, id, s.table[id].attemptCount);
      }
    }
  }

  // ----- Two ways an own step leaves the task -----

  /** Its coroutine has ended. */
  lemma Ended(s: State, s': State, h: Handle, clean: bool)
    requires TaskInv(s, h.taskId, clean) && h in s.runners && h.taskId in s.table && h.taskId in s'.table
    requires s'.runners == s.runners - {h} && s'.background == s.background - {h.taskId}
    requires s'.phase == s.phase && s'.log == s.log && s'.table[h.taskId].attemptCount == s.table[h.taskId].attemptCount
    requires s'.table[h.taskId].state != Running && (clean && s.phase == Serving ==> Terminal(s'.table[h.taskId].state))
    ensures TaskInv(s', h.taskId, clean)
  {
    assert forall g :: g in s'.runners ==> g in s.runners && g != h;
  }

  /** Its coroutine goes on. */
  lemma Continued(s: State, s': State, h: Handle, clean: bool)
    requires OneRunner(s.runners, h.taskId) && h in s.runners && h in s'.runners && h.taskId in s'.table
      && s'.runners.Keys == s.runners.Keys
    requires CoroutineOk(s', h, clean) && Covered(s', h.taskId, clean)
      && EntriesOk(s'.log, h.taskId, s'.table[h.taskId].attemptCount)
    ensures TaskInv(s', h.taskId, clean)
  {
    assert forall g :: g in s'.runners ==> g in s.runners.Keys;
  }

  lemma InvParts(s: State, h: Handle, clean: bool)
    requires TaskInv(s, h.taskId, clean) && h in s.runners && h.taskId in s.table
    ensures CoroutineOk(s, h, clean) && Covered(s, h.taskId, clean)
      && EntriesOk(s.log, h.taskId, s.table[h.taskId].attemptCount)
    ensures OneRunner(s.runners, h.taskId)
  {
  }

  lemma OwnParts(s: State, h: Handle, clean: bool)
    requires Sane(s) && TaskInv(s, h.taskId, clean) && h in s.runners
    ensures h.taskId in s.table && RecordOk(h.taskId, s.table[h.taskId], s.supply)
      && LocalOk(s.runners[h], s.table[h.taskId], s.supply)
    ensures CoroutineOk(s, h, clean) && Covered(s, h.taskId, clean)
      && EntriesOk(s.log, h.taskId, s.table[h.taskId].attemptCount)
    ensures h.taskId in s.background ==> s.background[h.taskId] == h
  {
    OwnRecords(s, h.taskId);
    if h.taskId in s.background {
      assert s.background[h.taskId] in s.runners && s.background[h.taskId].taskId == h.taskId;
    }
  }

  // ----- The attempt -----

  lemma TakenCoroutine(s: State, h: Handle, now: Time, clean: bool)
    requires h in s.runners && h.taskId in s.table && Takeable(s, h, s.table[h.taskId]) && CoroutineOk(s, h, clean)
      && !s.runners[h].cancelRequested
    requires Fresh(s.log, h.taskId, Attempted(s.table[h.taskId], s.supply, now))
    ensures CoroutineOk(Taken(s, h, s.table[h.taskId], now), h, clean)
    ensures Covered(Taken(s, h, s.table[h.taskId], now), h.taskId, clean)
  {
    AttemptedOk(h.taskId, s.table[h.taskId], s.supply, now);
  }

  lemma NewAttemptFresh(s: State, id: TaskId, r: TaskRecord)
    requires LogOk(s.log, s.table, s.supply) && id in s.table && EntriesOk(s.log, id, s.table[id].attemptCount)
    requires r.dispatchAttemptId == Some(s.supply) && r.attemptCount == s.table[id].attemptCount + 1
    ensures Fresh(s.log, id, r) && EntriesOk(s.log, id, r.attemptCount)
  {
    forall i | 0 <= i < |s.log| && s.log[i].taskId == id
      ensures s.log[i].attemptId.Some? && s.log[i].attemptId.value < s.supply {
      assert EntryOk(s.log[i], s.table, s.supply);
    }
  }

  lemma TakenInv(s: State, h: Handle, now: Time, clean: bool)
    requires LogOk(s.log, s.table, s.supply) && TaskInv(s, h.taskId, clean) && h in s.runners && h.taskId in s.table
    requires Takeable(s, h, s.table[h.taskId]) && !s.runners[h].cancelRequested
    ensures TaskInv(Taken(s, h, s.table[h.taskId], now), h.taskId, clean)
  {
    var s' := Taken(s, h, s.table[h.taskId], now);
    InvParts(s, h, clean);
    AttemptedOk(h.taskId, s.table[h.taskId], s.supply, now);
    NewAttemptFresh(s, h.taskId, s'.table[h.taskId]);
    TakenCoroutine(s, h, now, clean);
    assert s'.runners.Keys == s.runners.Keys;
    Continued(s, s', h, clean);
  }

  lemma TakenGood(s: State, h: Handle, now: Time, clean: bool)
    requires Sane(s) && TaskInv(s, h.taskId, clean) && h in s.runners && h.taskId in s.table
    requires Takeable(s, h, s.table[h.taskId]) && !s.runners[h].cancelRequested
    ensures Good(s, Taken(s, h, s.table[h.taskId], now), h.taskId, clean)
  {
    TakenInv(s, h, now, clean);
    AttemptedAdvances(s.table[h.taskId], s.supply, now);
  }

  lemma UnstartedTakes(s: State, h: Handle, now: Time, clean: bool)
    requires Sane(s) && TaskInv(s, h.taskId, clean) && h in s.runners && s.runners[h].pc.NotStarted?
    ensures h.taskId in s.table && s.table[h.taskId].workingDirectory.Some?
    ensures !Terminal(s.table[h.taskId].state) ==>
              Takeable(s, h, s.table[h.taskId])
                && TakeAttempt(s, h, s.table[h.taskId], now) == Taken(s, h, s.table[h.taskId], now)
  {
    OwnParts(s, h, clean);
    if !Terminal(s.table[h.taskId].state) {
      assert Takeable(s, h, s.table[h.taskId]);
      TakeAttemptIs(s, h, s.table[h.taskId], now);
    }
  }

  /**
   A first step of a ready task's coroutine ends it, puts it to sleep on the stored record, or takes an attempt on it.
   */
  lemma FirstIs(s: State, h: Handle, front: Frontmatter, now: Time, clean: bool)
    requires Sane(s) && TaskInv(s, h.taskId, clean) && h in s.runners && s.runners[h].pc.NotStarted?
    ensures h.taskId in s.table
    ensures s.runners[h].cancelRequested || Terminal(s.table[h.taskId].state) ==>
      First(s, h, front, now) == Finish(s, h)
    ensures !s.runners[h].cancelRequested && !Terminal(s.table[h.taskId].state) ==>
              Takeable(s, h, s.table[h.taskId])
              && First(s, h, front, now) == if s.config.recovery.delaySeconds != 0.0
                && s.table[h.taskId].state == Recovering
                                         then SetPc(s, h, Sleeping(s.table[h.taskId]))
                                           else Taken(s, h, s.table[h.taskId], now)
  {
    UnstartedTakes(s, h, now, clean);
    FirstIsOneOf(s, h, front, now);
  }

  /** A coroutine that never enters its `try` leaves no Running record, and no open one but at a stop. */
  lemma UnstartedEnds(s: State, h: Handle, clean: bool)
    requires Sane(s) && TaskInv(s, h.taskId, clean) && h in s.runners && s.runners[h].pc.NotStarted?
    requires s.runners[h].cancelRequested || !Open(s, h.taskId)
    ensures Good(s, Finish(s, h), h.taskId, clean)
  {
    OwnParts(s, h, clean);
    Ended(s, Finish(s, h), h, clean);
  }

  /** The coroutine goes on over the same record. */
  lemma SameRows(s: State, s': State, h: Handle, clean: bool)
    requires TaskInv(s, h.taskId, clean) && h in s.runners && h in s'.runners && h.taskId in s.table
      && s'.runners.Keys == s.runners.Keys
    requires s'.table == s.table && s'.phase == s.phase && s'.background == s.background && s'.deferred == s.deferred
    requires CoroutineOk(s', h, clean) && EntriesOk(s'.log, h.taskId, s.table[h.taskId].attemptCount)
    ensures Good(s, s', h.taskId, clean)
  {
    Continued(s, s', h, clean);
  }

  lemma SleepingCoroutine(s: State, h: Handle, clean: bool)
    requires h in s.runners && h.taskId in s.table && CoroutineOk(s, h, clean)
    ensures var s' := SetPc(s, h, Sleeping(s.table[h.taskId])); s'.runners.Keys == s.runners.Keys && CoroutineOk(s', h, clean)
  {
  }

  lemma SleepGood(s: State, h: Handle, clean: bool)
    requires Sane(s) && TaskInv(s, h.taskId, clean) && h in s.runners && h.taskId in s.table
    ensures Good(s, SetPc(s, h, Sleeping(s.table[h.taskId])), h.taskId, clean)
  {
    OwnParts(s, h, clean);
    SleepingCoroutine(s, h, clean);
    SameRows(s, SetPc(s, h, Sleeping(s.table[h.taskId])), h, clean);
  }

  lemma FirstGood(s: State, h: Handle, front: Frontmatter, now: Time, clean: bool)
    requires Sane(s) && TaskInv(s, h.taskId, clean) && h in s.runners && s.runners[h].pc.NotStarted?
    ensures Good(s, First(s, h, front, now), h.taskId, clean)
  {
    FirstIs(s, h, front, now, clean);
    if s.runners[h].cancelRequested || !Open(s, h.taskId) {
      UnstartedEnds(s, h, clean);
    } else if s.config.recovery.delaySeconds != 0.0 && s.table[h.taskId].state == Recovering {
      SleepGood(s, h, clean);
    } else {
      TakenGood(s, h, now, clean);
    }
  }

  /** An undisturbed sleeper wakes with the stored record: its write-back cannot undo anything. */
  lemma WakeIs(s: State, h: Handle, front: Frontmatter, now: Time, clean: bool)
    requires Sane(s) && TaskInv(s, h.taskId, clean) && h in s.runners && s.runners[h].pc.Sleeping?
      && !s.runners[h].cancelRequested
    ensures s.runners[h].pc.snapshot == s.table[h.taskId] && Takeable(s, h, s.table[h.taskId])
    ensures Body(s, h, s.runners[h].pc.snapshot, front, now) == Taken(s, h, s.table[h.taskId], now)
  {
    OwnParts(s, h, clean);
    BodyAttempts(s, h, s.runners[h].pc.snapshot, front, now);
    TakeAttemptIs(s, h, s.table[h.taskId], now);
  }

  lemma WakeGood(s: State, h: Handle, front: Frontmatter, now: Time, clean: bool)
    requires Sane(s) && TaskInv(s, h.taskId, clean) && h in s.runners && s.runners[h].pc.Sleeping?
      && !s.runners[h].cancelRequested
    ensures Good(s, Body(s, h, s.runners[h].pc.snapshot, front, now), h.taskId, clean)
  {
    WakeIs(s, h, front, now, clean);
    TakenGood(s, h, now, clean);
  }

  // ----- Sending -----

  lemma SentEntries(log: seq<Dispatch>, id: TaskId, task: TaskRecord, recoveryAttempt: bool)
    requires EntriesOk(log, id, task.attemptCount) && Fresh(log, id, task) && task.taskId == id
      && task.attemptCount >= 1
    requires recoveryAttempt <==> task.attemptCount >= 2
    ensures EntriesOk(log + [DispatchOf(task, recoveryAttempt)], id, task.attemptCount)
  {
  }

  lemma SentCoroutine(s: State, h: Handle, clean: bool)
    requires h in s.runners && h.taskId in s.table && CoroutineOk(s, h, clean) && s.runners[h].pc.Calling?
    ensures CoroutineOk(Send(s, h), h, clean) && Send(s, h).runners.Keys == s.runners.Keys
  {
  }

  lemma SendGood(s: State, h: Handle, clean: bool)
    requires Sane(s) && TaskInv(s, h.taskId, clean) && h in s.runners && s.runners[h].pc.Calling?
      && !s.runners[h].pc.sent
    ensures Good(s, Send(s, h), h.taskId, clean)
  {
    OwnParts(s, h, clean);
    SentEntries(s.log, h.taskId, s.runners[h].pc.task, s.runners[h].pc.recoveryAttempt);
    SentCoroutine(s, h, clean);
    SameRows(s, Send(s, h), h, clean);
  }

  // ----- Ending in the worker call, or interrupted -----

  lemma SettleFinishIs(s: State, h: Handle, target: TaskState, error: Option<string>, result: Option<Payload>,
                       now: Time)
    requires h in s.runners && h.taskId in s.table && s.table[h.taskId].taskId == h.taskId
    ensures var s' := Finish(SettleAs(s, h.taskId, target, error, result, now), h);
      && s'.runners == s.runners - {h} && s'.background == s.background - {h.taskId}
      && s'.phase == s.phase && s'.log == s.log && s'.deferred == s.deferred && h.taskId in s'.table
      && s'.table[h.taskId] == Outcome(s.table[h.taskId], target, error, result, now)
  {
    SettleIs(s, h.taskId, target, error, result, now);
  }

  lemma SettleFinishGood(s: State, h: Handle, target: TaskState, error: Option<string>, result: Option<Payload>,
                         now: Time, clean: bool)
    requires TaskInv(s, h.taskId, clean) && h in s.runners && Verdict(target, error, result)
    requires h.taskId in s.table && s.table[h.taskId].taskId == h.taskId
    requires Terminal(s.table[h.taskId].state) || target in AllowedTransitions(s.table[h.taskId].state)
             || (!clean && s.table[h.taskId].state == Recovering)
    ensures Good(s, Finish(SettleAs(s, h.taskId, target, error, result, now), h), h.taskId, clean)
  {
    SettleFinishIs(s, h, target, error, result, now);
    OutcomeAdvances(s.table[h.taskId], target, error, result, now);
    Ended(s, Finish(SettleAs(s, h.taskId, target, error, result, now), h), h, clean);
  }

  /** In the worker call the record is open as Running, over, or, after an unclean start, Recovering. */
  lemma CallingCases(s: State, h: Handle, clean: bool)
    requires Sane(s) && TaskInv(s, h.taskId, clean) && h in s.runners && s.runners[h].pc.Calling?
    ensures h.taskId in s.table && s.table[h.taskId].taskId == h.taskId
    ensures s.table[h.taskId] == s.runners[h].pc.task || Terminal(s.table[h.taskId].state)
      || (!clean && s.table[h.taskId].state == Recovering)
    ensures s.runners[h].pc.task.state == Running
  {
    OwnParts(s, h, clean);
  }

  lemma FailureGood(s: State, h: Handle, failure: Failure, now: Time, clean: bool)
    requires Sane(s) && TaskInv(s, h.taskId, clean) && h in s.runners && s.runners[h].pc.Calling?
    ensures Good(s, Finish(HandleFailure(s, h.taskId, failure, now), h), h.taskId, clean)
  {
    CallingCases(s, h, clean);
    SettleFinishGood(s, h, FailureTarget(failure), Some(FailureMessage(failure)), None, now, clean);
  }

  lemma ReceiveLate(s: State, h: Handle, reply: Reply, now: Time)
    requires h in s.runners && !Open(s, h.taskId)
    ensures Receive(s, h, reply, now) == Finish(s, h)
      == Finish(SettleAs(s, h.taskId, Completed, None, Some(""), now), h)
  {
  }

  lemma ReceiveGood(s: State, h: Handle, reply: Reply, now: Time, clean: bool)
    requires Sane(s) && TaskInv(s, h.taskId, clean) && h in s.runners && s.runners[h].pc.Calling?
    ensures Good(s, Receive(s, h, reply, now), h.taskId, clean)
  {
    CallingCases(s, h, clean);
    if Open(s, h.taskId) {
      ReceiveIs(s, h, reply, now);
      var failure := ReplyFailure(s.table[h.taskId], reply);
      if failure.Some? {
        FailureGood(s, h, failure.value, now, clean);
      } else {
        SettleFinishGood(s, h, Completed, None, Some(reply.result), now, clean);
      }
    } else {
      ReceiveLate(s, h, reply, now);
      SettleFinishGood(s, h, Completed, None, Some(""), now, clean);
    }
  }

  lemma CancelEdge(id: TaskId, r: TaskRecord, supply: nat)
    requires RecordOk(id, r, supply)
    ensures Terminal(r.state) || Cancelled in AllowedTransitions(r.state)
  {
  }

  lemma InterruptGood(s: State, h: Handle, now: Time, clean: bool)
    requires Sane(s) && TaskInv(s, h.taskId, clean) && h in s.runners
    ensures Good(s, Interrupt(s, h, now), h.taskId, clean)
  {
    OwnParts(s, h, clean);
    CancelEdge(h.taskId, s.table[h.taskId], s.supply);
    SettleFinishGood(s, h, Cancelled, Some(BACKGROUND_CANCELLED), None, now, clean);
  }

  // ----- The caller's cancel -----

  lemma CancelIs(s: State, id: TaskId, now: Time)
    requires id in s.table && s.table[id].taskId == id
    ensures var s' := Cancel(s, id, now);
      && id in s'.table && s'.table[id] == Outcome(s.table[id], Cancelled, Some(CANCELLED_BY_CALLER), None, now)
      && s'.runners == (if Open(s, id) then RequestCancel(s, id).runners else s.runners)
      && s'.(table := s.table, runners := s.runners, counters := s.counters) == s
  {
    SettleIs(RequestCancel(s, id), id, Cancelled, Some(CANCELLED_BY_CALLER), None, now);
  }

  /** Cancelling an open record makes it terminal, and a coroutine asleep on it is registered, so it is told. */
  lemma CancelledCoroutine(s: State, id: TaskId, now: Time, h: Handle, clean: bool)
    requires Sane(s) && TaskInv(s, id, clean) && id in s.table && h in s.runners && h.taskId == id
    ensures h in Cancel(s, id, now).runners && id in Cancel(s, id, now).table
      && CoroutineOk(Cancel(s, id, now), h, clean)
  {
    OwnParts(s, h, clean);
    CancelIs(s, id, now);
    CancelEdge(id, s.table[id], s.supply);
    OutcomeAdvances(s.table[id], Cancelled, Some(CANCELLED_BY_CALLER), None, now);
  }

  lemma CancelAdvances(s: State, id: TaskId, now: Time)
    requires Sane(s) && id in s.table
    ensures var s' := Cancel(s, id, now);
      && id in s'.table && Advances(s.table[id], s'.table[id]) && Terminal(s'.table[id].state)
      && s'.table[id].attemptCount == s.table[id].attemptCount && s'.log == s.log && s'.runners.Keys == s.runners.Keys
  {
    assert RecordOk(id, s.table[id], s.supply);
    CancelIs(s, id, now);
    CancelEdge(id, s.table[id], s.supply);
    OutcomeAdvances(s.table[id], Cancelled, Some(CANCELLED_BY_CALLER), None, now);
  }

  /** Its record is over, and its coroutines are those it had. */
  lemma OverGood(s: State, s': State, id: TaskId, clean: bool)
    requires TaskInv(s, id, clean) && id in s.table && id in s'.table && s'.runners.Keys == s.runners.Keys
      && s'.log == s.log
    requires Terminal(s'.table[id].state) && s'.table[id].attemptCount == s.table[id].attemptCount
    requires forall h :: h in s'.runners && h.taskId == id ==> CoroutineOk(s', h, clean)
    ensures TaskInv(s', id, clean)
  {
    assert forall h :: h in s'.runners ==> h in s.runners.Keys;
  }

  lemma CancelGood(s: State, id: TaskId, now: Time, clean: bool)
    requires Sane(s) && TaskInv(s, id, clean) && id in s.table
    ensures Good(s, Cancel(s, id, now), id, clean)
  {
    var s' := Cancel(s, id, now);
    CancelAdvances(s, id, now);
    forall h | h in s'.runners && h.taskId == id ensures CoroutineOk(s', h, clean) {
      assert h in s.runners.Keys;
      CancelledCoroutine(s, id, now, h, clean);
    }
    OverGood(s, s', id, clean);
  }

  // ----- Submission -----

  lemma NoEntriesYet(log: seq<Dispatch>, table: Table, supply: nat, id: TaskId)
    requires LogOk(log, table, supply) && id !in table
    ensures EntriesOk(log, id, 0)
  {
    forall i | 0 <= i < |log| ensures log[i].taskId != id {
      assert EntryOk(log[i], table, supply);
    }
  }

  /** A new task has one registered coroutine, whatever the manager is doing. */
  lemma CreateGood(s: State, r: Request, clean: bool)
    requires Sane(s) && Creates(s, r)
    ensures TaskInv(Submit(s, r), s.supply, clean)
  {
    CreateIs(s, r);
    NoEntriesYet(s.log, s.table, s.supply, s.supply);
    var s', id := Submit(s, r), s.supply;
    forall h | h in s'.runners && h.taskId == id ensures h == Handle(id, id) && CoroutineOk(s', h, clean) {
      assert h in s.runners ==> h.taskId in s.table;
    }
  }

  lemma AddedApart(s: State, s': State, task: TaskRecord, id: TaskId, clean: bool)
    requires TaskInv(s, id, clean) && id != s.supply
    requires s'.table == s.table[s.supply := task] && s'.phase == s.phase && s'.log == s.log
      && s'.deferred == s.deferred
    requires s'.runners == s.runners[Handle(s.supply, s.supply) := Runner(NotStarted, false)]
    requires s'.background == s.background[s.supply := Handle(s.supply, s.supply)]
    ensures Good(s, s', id, clean)
  {
    if id in s'.table {
      forall h | h in s'.runners && h.taskId == id ensures h in s.runners && CoroutineOk(s', h, clean) {
        assert CoroutineOk(s, h, clean);
      }
    }
  }

  lemma NewcomerApart(s: State, r: Request, id: TaskId, clean: bool)
    requires Sane(s) && TaskInv(s, id, clean) && Creates(s, r) && id != s.supply
    ensures Good(s, Submit(s, r), id, clean)
  {
    CreateIs(s, r);
    AddedApart(s, Submit(s, r), NewRecord(s, r, Admission(s, r).value), id, clean);
  }

  lemma SubmitGood(s: State, r: Request, id: TaskId, clean: bool)
    requires Sane(s) && TaskInv(s, id, clean)
    ensures Good(s, Submit(s, r), id, clean)
  {
    if Creates(s, r) {
      CreateIs(s, r);
      if id == s.supply {
        CreateGood(s, r, clean);
      } else {
        NewcomerApart(s, r, id, clean);
      }
    }
  }

  // ----- Start -----

  lemma OpenNotScheduled(s: State, now: Time, id: TaskId)
    requires id in s.table && Terminal(s.table[id].state) && Marked(s.table[id], now) == s.table[id]
    ensures id !in ToSchedule(s, MarkRecovering(s.table, now))
  {
  }

  lemma FoundFaces(runner: Runner, r: TaskRecord, now: Time, clean: bool, supply: nat)
    requires RecordOk(r.taskId, r, supply) && LocalOk(runner, r, supply) && Faces(runner, r, clean)
      && r.state != Recovering
    requires Terminal(r.state) || (clean ==> r.state == Pending)
    ensures Faces(runner, Marked(r, now), clean)
  {
  }

  /**
   A coroutine that a ready start finds is left as it is, and its record is not taken from under it unless the start is
   unclean.
   */
  lemma FoundCoroutine(s: State, now: Time, h: Handle, clean: bool)
    requires Sane(s) && TaskInv(s, h.taskId, clean) && s.phase == Idle && Ready(s, h.taskId, clean) && h in s.runners
    ensures h.taskId in Start(s, now).table && h in Start(s, now).runners && CoroutineOk(Start(s, now), h, clean)
    ensures h.taskId !in ToSchedule(s, MarkRecovering(s.table, now))
  {
    OwnParts(s, h, clean);
    StartShape(s, now);
    MarkedOk(h.taskId, s.table[h.taskId], now, s.supply);
    FoundFaces(s.runners[h], s.table[h.taskId], now, clean, s.supply);
    if Terminal(s.table[h.taskId].state) {
      OpenNotScheduled(s, now, h.taskId);
    } else {
      assert h.taskId in ActiveIds(s);
    }
  }

  lemma NewCoroutine(s: State, now: Time, h: Handle, clean: bool)
    requires Sane(s) && s.phase == Idle && h in Start(s, now).runners && h !in s.runners
    ensures h.serial == s.supply && h.taskId in ToSchedule(s, MarkRecovering(s.table, now))
    ensures h.taskId in Start(s, now).table && CoroutineOk(Start(s, now), h, clean)
  {
    StartShape(s, now);
    assert h.taskId in s.table;
    MarkedOk(h.taskId, s.table[h.taskId], now, s.supply);
  }

  lemma ScheduledOrDeferred(s: State, marked: Table, id: TaskId)
    requires id in marked && !Terminal(marked[id].state)
    ensures id in ToSchedule(s, marked) || id in s.background
      || (marked[id].state == Recovering && id in Deferred(s, marked))
  {
  }

  /** After a start an open task is registered or deferred, and nothing is Running. */
  lemma StartCovers(s: State, now: Time, id: TaskId, clean: bool)
    requires Sane(s) && s.phase == Idle && id in s.table
    ensures id in Start(s, now).table && Covered(Start(s, now), id, clean)
  {
    StartShape(s, now);
    assert RecordOk(id, s.table[id], s.supply);
    MarkedOk(id, s.table[id], now, s.supply);
    if !Terminal(Marked(s.table[id], now).state) {
      ScheduledOrDeferred(s, MarkRecovering(s.table, now), id);
    }
  }

  lemma MarkedAdvances(id: TaskId, r: TaskRecord, now: Time, supply: nat)
    requires RecordOk(id, r, supply)
    ensures Advances(r, Marked(r, now))
  {
  }

  lemma StartedCoroutine(s: State, now: Time, h: Handle, clean: bool)
    requires Sane(s) && TaskInv(s, h.taskId, clean) && s.phase == Idle && Ready(s, h.taskId, clean)
      && h in Start(s, now).runners
    ensures h.taskId in Start(s, now).table && CoroutineOk(Start(s, now), h, clean)
    ensures h in s.runners <==> h.taskId !in ToSchedule(s, MarkRecovering(s.table, now))
    ensures h !in s.runners ==> h.serial == s.supply
  {
    if h in s.runners {
      FoundCoroutine(s, now, h, clean);
    } else {
      NewCoroutine(s, now, h, clean);
    }
  }

  lemma StartGood(s: State, now: Time, id: TaskId, clean: bool)
    requires Sane(s) && TaskInv(s, id, clean) && s.phase == Idle && Ready(s, id, clean)
    ensures Good(s, Start(s, now), id, clean)
  {
    var s' := Start(s, now);
    if id in s.table {
      StartCovers(s, now, id, clean);
      assert RecordOk(id, s.table[id], s.supply);
      MarkedOk(id, s.table[id], now, s.supply);
      MarkedAdvances(id, s.table[id], now, s.supply);
      forall h | h in s'.runners && h.taskId == id
        ensures CoroutineOk(s', h, clean) && (h in s.runners <==> id !in ToSchedule(s, MarkRecovering(s.table, now)))
        ensures h in s.runners || h.serial == s.supply
      {
        StartedCoroutine(s, now, h, clean);
      }
    }
  }

  // ----- Stop, crash, reload -----

  lemma CrashGood(s: State, id: TaskId, clean: bool)
    requires TaskInv(s, id, clean)
    ensures Good(s, Crash(s), id, clean)
  {
  }

  lemma ReloadGood(s: State, config: Config, id: TaskId, clean: bool)
    requires TaskInv(s, id, clean)
    ensures Good(s, Reload(s, config), id, clean)
  {
    forall h | h in s.runners && h.taskId == id && id in s.table ensures CoroutineOk(Reload(s, config), h, clean) {
      assert CoroutineOk(s, h, clean);
    }
  }

  /** The manager becomes idle and forgets what is registered: safe when no coroutine is held, or awaited. */
  lemma IdleGood(s: State, id: TaskId, clean: bool)
    requires Sane(s) && TaskInv(s, id, clean)
    requires forall h :: h in s.runners && h.taskId == id ==>
      !Awaited(s.phase, h) && (h.taskId in s.table && s.table[id].state == Recovering ==> !Held(s.phase, h))
    ensures Good(s, StopEnd(s), id, clean)
  {
    var s' := StopEnd(s);
    if id in s.table {
      forall h | h in s.runners && h.taskId == id ensures CoroutineOk(s', h, clean) {
        assert CoroutineOk(s, h, clean);
      }
    }
  }

  lemma StopEndGood(s: State, id: TaskId, clean: bool)
    requires Sane(s) && TaskInv(s, id, clean) && Enabled(s, StopEndStep)
    ensures Good(s, StopEnd(s), id, clean)
  {
    assert forall h :: h in s.runners.Keys ==> h !in s.phase.waiting;
    IdleGood(s, id, clean);
  }

  lemma ForgottenIsOver(s: State, id: TaskId, clean: bool)
    requires TaskInv(s, id, clean) && s.phase == Serving && s.background == map[] && id in s.table
    ensures forall h :: h in s.runners && h.taskId == id ==> Terminal(s.table[id].state)
  {
    forall h | h in s.runners && h.taskId == id ensures Terminal(s.table[id].state) {
      InvParts(s, h, clean);
    }
  }

  /** With nothing registered, whatever still runs belongs to a terminal record. */
  lemma NobodyGood(s: State, id: TaskId, clean: bool)
    requires Sane(s) && TaskInv(s, id, clean) && s.phase == Serving && s.background == map[]
    ensures Good(s, StopEnd(s), id, clean)
  {
    if id in s.table {
      ForgottenIsOver(s, id, clean);
    }
    IdleGood(s, id, clean);
  }

  lemma NobodyRegistered(s: State)
    requires BackgroundHandles(s) == {} || (ActiveIds(s) == {} && BackgroundOk(s.background, s.runners))
    ensures s.background == map[]
  {
    BackgroundIsHandled(s);
    assert forall id :: id in s.background && s.background[id] in s.runners ==> id in ActiveIds(s);
  }

  /** A registered coroutine is told and awaited; one that is not registered belongs to a terminal record. */
  lemma FlaggedPlaced(background: map<TaskId, Handle>, h: Handle, runner: Runner, r: TaskRecord, handles: set<Handle>)
    requires Placed(Serving, background, h, runner, r) && (h.taskId in background ==> h in handles)
    ensures Placed(Stopping(handles), background, h, if h in handles then runner.(cancelRequested := true)
      else runner, r)
  {
  }

  lemma FlaggedFaces(runner: Runner, r: TaskRecord, clean: bool)
    requires Faces(runner, r, clean)
    ensures Faces(runner.(cancelRequested := true), r, clean)
  {
  }

  lemma FlaggedCoroutine(s: State, h: Handle, clean: bool)
    requires Sane(s) && TaskInv(s, h.taskId, clean) && s.phase == Serving && BackgroundHandles(s) != {}
      && h in s.runners
    ensures h.taskId in s.table && h in StopBegin(s).runners && CoroutineOk(StopBegin(s), h, clean)
  {
    OwnParts(s, h, clean);
    BackgroundIsHandled(s);
    FlaggedFaces(s.runners[h], s.table[h.taskId], clean);
    FlaggedPlaced(s.background, h, s.runners[h], s.table[h.taskId], BackgroundHandles(s));
    assert Flagged(s.runners, BackgroundHandles(s))[h] == if h in BackgroundHandles(s)
      then s.runners[h].(cancelRequested := true) else s.runners[h];
  }

  lemma StopBeginGood(s: State, id: TaskId, clean: bool)
    requires Sane(s) && TaskInv(s, id, clean)
    ensures Good(s, StopBegin(s), id, clean)
  {
    if s.phase == Serving && BackgroundHandles(s) == {} {
      NobodyRegistered(s);
      NobodyGood(s, id, clean);
    } else if s.phase == Serving {
      var s' := StopBegin(s);
      forall h | h in s'.runners && h.taskId == id && id in s.table
        ensures h in s.runners && CoroutineOk(s', h, clean) {
        FlaggedCoroutine(s, h, clean);
      }
    }
  }

  lemma SwitchStoreGood(s: State, id: TaskId, clean: bool)
    requires Sane(s) && TaskInv(s, id, clean)
    ensures Good(s, SwitchStore(s), id, clean)
  {
    if s.phase == Serving && ActiveIds(s) == {} {
      NobodyRegistered(s);
      NobodyGood(s, id, clean);
    }
  }

  // ----- Every step -----

  lemma OwnStepGood(s: State, l: Label, clean: bool)
    requires Sane(s) && Enabled(s, l) && Own(l) && TaskInv(s, l.h.taskId, clean)
    ensures Good(s, Next(s, l), l.h.taskId, clean)
  {
    match l {
      case FirstStep(h, front, now) => FirstGood(s, h, front, now, clean);
      case WakeStep(h, front, now) => WakeGood(s, h, front, now, clean);
      case SendStep(h) => SendGood(s, h, clean);
      case ReceiveStep(h, reply, now) => ReceiveGood(s, h, reply, now, clean);
      case InterruptStep(h, now) => InterruptGood(s, h, now, clean);
    }
  }

  lemma ControlGood(s: State, l: Label, id: TaskId, clean: bool)
    requires Sane(s) && Enabled(s, l) && TaskInv(s, id, clean) && Orderly(s, l, id, clean)
    requires l.StartStep? || l.StopBeginStep? || l.StopEndStep? || l.CrashStep? || l.ReloadStep? || l.SwitchStoreStep?
    ensures Good(s, Next(s, l), id, clean)
  {
    match l {
      case StartStep(now) => if s.phase == Idle { StartGood(s, now, id, clean); }
      case StopBeginStep => StopBeginGood(s, id, clean);
      case StopEndStep => StopEndGood(s, id, clean);
      case CrashStep => CrashGood(s, id, clean);
      case ReloadStep(config) => ReloadGood(s, config, id, clean);
      case SwitchStoreStep => SwitchStoreGood(s, id, clean);
    }
  }

  lemma CancelStepGood(s: State, t: TaskId, now: Time, id: TaskId, clean: bool)
    requires Sane(s) && TaskInv(s, id, clean)
    ensures Good(s, Cancel(s, t, now), id, clean)
  {
    if t in s.table && t == id {
      CancelGood(s, id, now, clean);
    } else if t in s.table {
      CancelSane(s, t, now);
      OtherStep(s, Cancel(s, t, now), t, id, clean);
    }
  }

  /** Every step but a start that does not find the task ready keeps its invariant and advances its record. */
  lemma StepGood(s: State, l: Label, id: TaskId, clean: bool)
    requires Sane(s) && Enabled(s, l) && TaskInv(s, id, clean) && Orderly(s, l, id, clean)
    ensures Good(s, Next(s, l), id, clean)
  {
    if Own(l) {
      if l.h.taskId == id {
        OwnStepGood(s, l, clean);
      } else {
        OwnStepSane(s, l);
        OtherStep(s, Next(s, l), l.h.taskId, id, clean);
      }
    } else if l.CancelStep? {
      CancelStepGood(s, l.taskId, l.now, id, clean);
    } else if l.SubmitStep? {
      SubmitGood(s, l.request, id, clean);
    } else {
      ControlGood(s, l, id, clean);
    }
  }

  // ----- Which submissions keep a task ready -----

  /**
   Each coroutine of the task is registered, and awaited while a stop waits; for a clean task there is
   none while the manager is idle. Then every start finds the task ready, or clean.
   */
  ghost predicate Attended(s: State, id: TaskId, clean: bool) {
    forall h :: h in s.runners && h.taskId == id ==>
      id in s.background && s.background[id] == h && (s.phase.Stopping? ==> h in s.phase.waiting)
        && (clean ==> s.phase != Idle)
  }

  lemma AttendedReady(s: State, id: TaskId, clean: bool)
    requires Sane(s) && Attended(s, id, clean) && s.phase == Idle
    ensures Ready(s, id, clean)
  {
  }

  /**
   When a submission is timely for the task it creates: no stop is waiting; for a clean task, the manager is serving.
   */
  ghost predicate Timely(phase: Phase, clean: bool) {
    !phase.Stopping? && (clean ==> phase == Serving)
  }

  /** An own step keeps every coroutine and what is registered, or ends this one and unregisters its task. */
  ghost predicate KeepsAll(s: State, s': State) {
    s'.runners.Keys == s.runners.Keys && s'.background == s.background
  }

  ghost predicate EndsOne(s: State, s': State, h: Handle) {
    s'.runners.Keys == s.runners.Keys - {h} && s'.background == s.background - {h.taskId}
  }

  lemma AttemptHandles(s: State, h: Handle, task: TaskRecord, now: Time)
    requires TableOk(s.table, s.supply) && h in s.runners && h.taskId in s.table
    requires RecordOk(h.taskId, task, s.supply) && SameTask(s.table[h.taskId], task) && !Terminal(task.state)
    ensures KeepsAll(s, TakeAttempt(s, h, task, now))
  {
    if task.state != Running {
      assert Takeable(s, h, task);
      TakeAttemptIs(s, h, task, now);
    }
  }

  lemma UpdateKeeps(s: State, h: Handle, pc: Pc)
    requires h in s.runners
    ensures KeepsAll(s, SetPc(s, h, pc))
  {
  }

  lemma FirstKeeps(s: State, h: Handle, front: Frontmatter, now: Time)
    requires Sane(s) && h in s.runners && !s.runners[h].cancelRequested && Open(s, h.taskId)
    ensures KeepsAll(s, First(s, h, front, now))
  {
    OwnRecords(s, h.taskId);
    FirstIsOneOf(s, h, front, now);
    AttemptHandles(s, h, s.table[h.taskId], now);
    UpdateKeeps(s, h, Sleeping(s.table[h.taskId]));
  }

  lemma FirstHandles(s: State, h: Handle, front: Frontmatter, now: Time)
    requires Sane(s) && h in s.runners
    ensures KeepsAll(s, First(s, h, front, now)) || EndsOne(s, First(s, h, front, now), h)
  {
    if !s.runners[h].cancelRequested && Open(s, h.taskId) {
      FirstKeeps(s, h, front, now);
    }
  }

  lemma SleeperAttemptHandles(s: State, h: Handle, now: Time)
    requires Sane(s) && h in s.runners && s.runners[h].pc.Sleeping?
    ensures s.runners[h].pc.snapshot.workingDirectory.Some?
      && KeepsAll(s, TakeAttempt(s, h, s.runners[h].pc.snapshot, now))
  {
    SleeperHolds(s, h);
    AttemptHandles(s, h, s.runners[h].pc.snapshot, now);
  }

  lemma WakeHandles(s: State, h: Handle, front: Frontmatter, now: Time)
    requires Sane(s) && h in s.runners && s.runners[h].pc.Sleeping?
    ensures KeepsAll(s, Body(s, h, s.runners[h].pc.snapshot, front, now))
  {
    SleeperAttemptHandles(s, h, now);
    BodyAttempts(s, h, s.runners[h].pc.snapshot, front, now);
  }

  lemma SettleEndsOne(s: State, h: Handle, target: TaskState, error: Option<string>, result: Option<Payload>, now: Time)
    ensures EndsOne(s, Finish(SettleAs(s, h.taskId, target, error, result, now), h), h)
  {
  }

  lemma ReceiveHandles(s: State, h: Handle, reply: Reply, now: Time)
    requires Sane(s) && h in s.runners
    ensures EndsOne(s, Receive(s, h, reply, now), h)
  {
    if Open(s, h.taskId) {
      ReceiveIs(s, h, reply, now);
      var failure := ReplyFailure(s.table[h.taskId], reply);
      if failure.Some? {
        SettleEndsOne(s, h, FailureTarget(failure.value), Some(FailureMessage(failure.value)), None, now);
      } else {
        SettleEndsOne(s, h, Completed, None, Some(reply.result), now);
      }
    }
  }

  lemma InterruptHandles(s: State, h: Handle, now: Time)
    requires h in s.runners
    ensures EndsOne(s, Interrupt(s, h, now), h)
  {
  }

  /** A coroutine ends in its first step, in the worker call or by interruption, and no step ends another's. */
  lemma OwnHandles(s: State, l: Label)
    requires Sane(s) && Enabled(s, l) && Own(l)
    ensures KeepsAll(s, Next(s, l))
      || (EndsOne(s, Next(s, l), l.h) && (l.FirstStep? || l.ReceiveStep? || l.InterruptStep?))
  {
    match l {
      case FirstStep(h, front, now) => FirstHandles(s, h, front, now);
      case WakeStep(h, front, now) => WakeHandles(s, h, front, now);
      case SendStep(h) => UpdateKeeps(s, h, s.runners[h].pc.(sent := true));
      case ReceiveStep(h, reply, now) => ReceiveHandles(s, h, reply, now);
      case InterruptStep(h, now) => InterruptHandles(s, h, now);
    }
  }

  lemma HandlesAttended(s: State, s': State, g: Handle, id: TaskId, clean: bool)
    requires Attended(s, id, clean) && s'.phase == s.phase && g in s.runners && (KeepsAll(s, s') || EndsOne(s, s', g))
    ensures Attended(s', id, clean)
  {
    forall h | h in s'.runners && h.taskId == id
      ensures h in s.runners && id in s'.background && s'.background[id] == h {
      assert h in s.runners.Keys;
    }
  }

  lemma AttendedOwn(s: State, l: Label, id: TaskId, clean: bool)
    requires Sane(s) && Enabled(s, l) && Own(l) && Attended(s, id, clean)
    ensures Attended(Next(s, l), id, clean)
  {
    OwnStepSane(s, l);
    OwnHandles(s, l);
    HandlesAttended(s, Next(s, l), l.h, id, clean);
  }

  lemma JoinedAttended(s: State, s': State, ids: set<TaskId>, id: TaskId, clean: bool)
    requires Attended(s, id, clean) && s'.phase == Serving
    requires Joined(s.runners, s'.runners, ids, s.supply) && Registered(s.background, s'.background, ids, s.supply)
    requires forall h :: h in s.runners && h.taskId == id ==> id !in ids
    ensures Attended(s', id, clean)
  {
  }

  lemma AttendedStart(s: State, now: Time, id: TaskId, clean: bool)
    requires Sane(s) && s.phase == Idle && Attended(s, id, clean)
    ensures Attended(Start(s, now), id, clean)
  {
    StartShape(s, now);
    forall h | h in s.runners && h.taskId == id ensures id !in ToSchedule(s, MarkRecovering(s.table, now)) {
      assert id in ActiveIds(s);
    }
    JoinedAttended(s, Start(s, now), ToSchedule(s, MarkRecovering(s.table, now)), id, clean);
  }

  lemma AttendedStop(s: State, id: TaskId, clean: bool)
    requires Sane(s) && Attended(s, id, clean)
    ensures Attended(StopBegin(s), id, clean)
  {
    BackgroundIsHandled(s);
    if BackgroundHandles(s) == {} {
      NobodyRegistered(s);
    }
  }

  /** The manager becomes idle only when nobody is registered, or nobody awaited is left. */
  lemma AttendedIdle(s: State, id: TaskId, clean: bool)
    requires Sane(s) && Attended(s, id, clean)
    ensures Attended(SwitchStore(s), id, clean)
    ensures Enabled(s, StopEndStep) ==> Attended(StopEnd(s), id, clean)
  {
    if ActiveIds(s) == {} {
      NobodyRegistered(s);
    }
    assert Enabled(s, StopEndStep) ==> forall h :: h in s.runners.Keys ==> h !in s.phase.waiting;
  }

  lemma NewcomerAttended(s: State, s': State, id: TaskId, clean: bool)
    requires RunnersOk(s.runners, s.table, s.supply) && Attended(s, id, clean) && s.supply !in s.table
      && s'.phase == s.phase
    requires s'.runners == s.runners[Handle(s.supply, s.supply) := Runner(NotStarted, false)]
    requires s'.background == s.background[s.supply := Handle(s.supply, s.supply)]
    requires s.supply == id ==> Timely(s.phase, clean)
    ensures Attended(s', id, clean)
  {
    assert forall h :: h in s.runners ==> h.taskId in s.table;
  }

  lemma AttendedSubmit(s: State, r: Request, id: TaskId, clean: bool)
    requires Sane(s) && Attended(s, id, clean) && (Creates(s, r) && s.supply == id ==> Timely(s.phase, clean))
    ensures Attended(Submit(s, r), id, clean)
  {
    if Creates(s, r) {
      CreateIs(s, r);
      NewcomerAttended(s, Submit(s, r), id, clean);
    }
  }

  lemma AttendedCancel(s: State, t: TaskId, now: Time, id: TaskId, clean: bool)
    requires Sane(s) && Attended(s, id, clean)
    ensures Attended(Cancel(s, t, now), id, clean)
  {
    if t in s.table {
      assert RecordOk(t, s.table[t], s.supply);
      CancelIs(s, t, now);
      assert Cancel(s, t, now).runners.Keys == s.runners.Keys;
    }
  }

  /** A task whose own submission was timely stays attended through every step of every run. */
  lemma AttendedStep(s: State, l: Label, id: TaskId, clean: bool)
    requires Sane(s) && Enabled(s, l) && Attended(s, id, clean)
    requires l.SubmitStep? && Creates(s, l.request) && s.supply == id ==> Timely(s.phase, clean)
    ensures Attended(Next(s, l), id, clean)
  {
    if Own(l) {
      AttendedOwn(s, l, id, clean);
    } else if l.StartStep? {
      if s.phase == Idle { AttendedStart(s, l.now, id, clean); }
    } else if l.SubmitStep? {
      AttendedSubmit(s, l.request, id, clean);
    } else if l.CancelStep? {
      AttendedCancel(s, l.taskId, l.now, id, clean);
    } else {
      AttendedStop(s, id, clean);
      AttendedIdle(s, id, clean);
    }
  }
}
