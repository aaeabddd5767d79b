/**
 A task that the policy refuses to replay, in every run, however its submission and the stops and starts
 interleave: it may get a second coroutine, but it is never put to sleep, never reopened and never lost.
 */
module Unreplayed {
  import opened Wrappers
  import opened TaskStates
  import opened TaskTable
  import opened PathPolicy
  import opened Protocol
  import opened Invariant
  import opened TaskLife
  import opened Theorems
  import opened Dispatches

  // ----- The invariant -----

  /** Registered, or while a stop waits awaited by it: what the manager can still reach. */
  ghost predicate Reached(phase: Phase, background: map<TaskId, Handle>, h: Handle) {
    match phase
    case Stopping(waiting) => h in waiting
    case _ => h.taskId in background && background[h.taskId] == h
  }

  /** At most one coroutine of the task that the manager reaches, and at most one stray. */
  ghost predicate Paired(runners: map<Handle, Runner>, phase: Phase, background: map<TaskId, Handle>, id: TaskId) {
    forall g, h :: g in runners && h in runners && g.taskId == id && h.taskId == id && g != h ==>
      (Reached(phase, background, g) <==> !Reached(phase, background, h))
  }

  ghost predicate Carries(runners: map<Handle, Runner>, id: TaskId, g: Handle) {
    g in runners && g.taskId == id && runners[g].pc.Calling?
  }

  /**
   A coroutine that has not begun while the record is Running: another one, reached or with this one reached, is in the
   call.
   */
  ghost predicate Follows(runners: map<Handle, Runner>, phase: Phase, background: map<TaskId, Handle>, h: Handle) {
    exists g :: Carries(runners, h.taskId, g) && (Reached(phase, background, g) || Reached(phase, background, h))
  }

  ghost predicate ViewOk(s: State, h: Handle)
    requires h in s.runners && h.taskId in s.table
  {
    var runner, r := s.runners[h], s.table[h.taskId];
    && !runner.pc.Sleeping?
    && (r.state == Recovering ==> runner.pc.Calling?)
    && (r.state == Pending ==> runner.pc.NotStarted?)
    && (runner.cancelRequested ==> Terminal(r.state) || Awaited(s.phase, h))
    && (r.state == Running && runner.pc.NotStarted? ==> Follows(s.runners, s.phase, s.background, h))
  }

  /** While serving an open record is registered or deferred; while idle a registered coroutine is the only one. */
  ghost predicate Remembered(s: State, id: TaskId)
    requires id in s.table
  {
    && (s.phase == Serving && (s.table[id].state == Pending || s.table[id].state == Running) ==> id in s.background)
    && (s.phase == Serving && s.table[id].state == Recovering ==> id in s.deferred)
    && (s.phase == Idle && id in s.background ==> OneRunner(s.runners, id))
  }

  ghost predicate NotReplayed(s: State, id: TaskId) {
    match Stored(s, id)
    case None => true
    case Some(_) =>
      && Paired(s.runners, s.phase, s.background, id)
      && (forall h :: h in s.runners && h.taskId == id ==> ViewOk(s, h))
      && Remembered(s, id)
  }

  lemma ViewOf(s: State, h: Handle)
    requires NotReplayed(s, h.taskId) && h in s.runners && h.taskId in s.table
    ensures ViewOk(s, h) && Paired(s.runners, s.phase, s.background, h.taskId) && Remembered(s, h.taskId)
  {
  }

  // ----- Steps about other tasks -----

  lemma OtherFollows(s: State, s': State, t: TaskId, h: Handle)
    requires Within(s, s', t) && h.taskId != t && Follows(s.runners, s.phase, s.background, h)
    ensures Follows(s'.runners, s'.phase, s'.background, h)
  {
    var g :| Carries(s.runners, h.taskId, g)
      && (Reached(s.phase, s.background, g) || Reached(s.phase, s.background, h));
    assert Carries(s'.runners, h.taskId, g);
  }

  lemma OtherNotReplayed(s: State, s': State, t: TaskId, id: TaskId)
    requires NotReplayed(s, id) && Within(s, s', t) && t != id
    ensures NotReplayed(s', id)
  {
    if id in s'.table {
      assert forall h :: h in s'.runners ==> h in s.runners.Keys;
      forall h | h in s'.runners && h.taskId == id ensures ViewOk(s', h) {
        ViewOf(s, h);
        if Follows(s.runners, s.phase, s.background, h) {
          OtherFollows(s, s', t, h);
        }
      }
    }
  }

  // ----- Own steps -----

  /** Of two coroutines one has ended. */
  lemma OneLeft(s: State, h: Handle)
    requires Paired(s.runners, s.phase, s.background, h.taskId) && h in s.runners
    ensures OneRunner(s.runners - {h}, h.taskId)
  {
  }

  lemma NobodyCalls(s: State, h: Handle, g: Handle)
    requires Paired(s.runners, s.phase, s.background, h.taskId) && h in s.runners && g in s.runners && g != h
      && g.taskId == h.taskId
    requires s.runners[h].pc.NotStarted? && s.runners[g].pc.NotStarted?
    ensures !Follows(s.runners, s.phase, s.background, g)
  {
    OneLeft(s, h);
    forall k ensures !Carries(s.runners, g.taskId, k) {
      assert k in s.runners && k != h ==> k in s.runners - {h};
    }
  }

  /** The coroutine ends: its record is over, or Recovering still, or it had not begun when a stop told it to cancel. */
  lemma EndedNotReplayed(s: State, s': State, h: Handle)
    requires NotReplayed(s, h.taskId) && h in s.runners && h.taskId in s.table && h.taskId in s'.table
    requires s'.runners == s.runners - {h} && s'.background == s.background - {h.taskId} && s'.phase == s.phase
      && s'.deferred == s.deferred
    requires var state := s'.table[h.taskId].state;
      || Terminal(state)
      || (state == s.table[h.taskId].state == Recovering)
      || (state == s.table[h.taskId].state && s.phase.Stopping? && s.runners[h].pc.NotStarted?)
    ensures NotReplayed(s', h.taskId)
  {
    ViewOf(s, h);
    OneLeft(s, h);
    forall g | g in s'.runners && g.taskId == h.taskId ensures g in s.runners && ViewOk(s', g) {
      ViewOf(s, g);
      if s.runners[h].pc.NotStarted? && s.runners[g].pc.NotStarted? {
        NobodyCalls(s, h, g);
      }
    }
  }

  lemma FollowerKept(s: State, s': State, h: Handle, g: Handle)
    requires Paired(s.runners, s.phase, s.background, h.taskId) && h in s.runners && g in s.runners && g != h
      && g.taskId == h.taskId
    requires h in s'.runners && s'.runners == s.runners[h := s'.runners[h]] && s'.runners[h].pc.Calling?
    requires s'.background == s.background && s'.phase == s.phase
    ensures Follows(s'.runners, s'.phase, s'.background, g)
  {
    assert Carries(s'.runners, g.taskId, h);
  }

  /** The coroutine goes on, in the worker call. */
  lemma EnteredNotReplayed(s: State, s': State, h: Handle)
    requires NotReplayed(s, h.taskId) && h in s.runners && h.taskId in s.table && h.taskId in s'.table
    requires h in s'.runners && s'.runners == s.runners[h := s'.runners[h]] && s'.runners[h].pc.Calling?
    requires s'.runners[h].cancelRequested == s.runners[h].cancelRequested
    requires s'.background == s.background && s'.phase == s.phase && s'.deferred == s.deferred
    requires var state := s'.table[h.taskId].state;
      || (state == s.table[h.taskId].state && state != Pending)
      || (s.table[h.taskId].state == Pending && state == Running && !s.runners[h].cancelRequested)
    ensures NotReplayed(s', h.taskId)
  {
    ViewOf(s, h);
    assert forall g :: g in s'.runners <==> g in s.runners;
    forall g | g in s'.runners && g.taskId == h.taskId ensures ViewOk(s', g) {
      ViewOf(s, g);
      if s'.table[h.taskId].state == Running && g != h && s'.runners[g].pc.NotStarted? {
        FollowerKept(s, s', h, g);
      }
    }
  }

  lemma FinishedFirst(s: State, h: Handle)
    requires Sane(s) && NotReplayed(s, h.taskId) && h in s.runners && s.runners[h].pc.NotStarted?
    requires s.runners[h].cancelRequested || !Open(s, h.taskId)
    ensures NotReplayed(Finish(s, h), h.taskId)
  {
    OwnRecords(s, h.taskId);
    ViewOf(s, h);
    EndedNotReplayed(s, Finish(s, h), h);
  }

  lemma AttemptedFirst(s: State, h: Handle, now: Time)
    requires Sane(s) && NotReplayed(s, h.taskId) && h in s.runners && s.runners[h].pc.NotStarted?
    requires !s.runners[h].cancelRequested && Open(s, h.taskId)
    ensures s.table[h.taskId].state != Recovering && NotReplayed(TakeAttempt(s, h, s.table[h.taskId], now), h.taskId)
  {
    OwnRecords(s, h.taskId);
    ViewOf(s, h);
    var r := s.table[h.taskId];
    if r.state == Running {
      EnteredNotReplayed(s, SetPc(s, h, Calling(r, false, false)), h);
    } else {
      assert Takeable(s, h, r);
      TakeAttemptIs(s, h, r, now);
      AttemptedOk(h.taskId, r, s.supply, now);
      EnteredNotReplayed(s, Taken(s, h, r, now), h);
    }
  }

  lemma FirstReadsRecord(s: State, h: Handle, front: Frontmatter, now: Time)
    requires Sane(s) && h in s.runners
    ensures First(s, h, front, now)
      == if s.runners[h].cancelRequested || !Open(s, h.taskId) then Finish(s, h)
         else if s.config.recovery.delaySeconds != 0.0
           && s.table[h.taskId].state == Recovering then SetPc(s, h, Sleeping(s.table[h.taskId]))
         else TakeAttempt(s, h, s.table[h.taskId], now)
  {
    OwnRecords(s, h.taskId);
    FirstIsOneOf(s, h, front, now);
  }

  lemma FirstNotReplayed(s: State, h: Handle, front: Frontmatter, now: Time)
    requires Sane(s) && NotReplayed(s, h.taskId) && h in s.runners && s.runners[h].pc.NotStarted?
    ensures NotReplayed(First(s, h, front, now), h.taskId)
  {
    FirstReadsRecord(s, h, front, now);
    if s.runners[h].cancelRequested || !Open(s, h.taskId) {
      FinishedFirst(s, h);
    } else {
      AttemptedFirst(s, h, now);
    }
  }

  lemma SendNotReplayed(s: State, h: Handle)
    requires Sane(s) && NotReplayed(s, h.taskId) && h in s.runners && s.runners[h].pc.Calling?
    ensures NotReplayed(Send(s, h), h.taskId)
  {
    OwnRecords(s, h.taskId);
    ViewOf(s, h);
    EnteredNotReplayed(s, Send(s, h), h);
  }

  lemma SettledNotReplayed(s: State, h: Handle, target: TaskState, error: Option<string>, result: Option<Payload>,
                           now: Time)
    requires NotReplayed(s, h.taskId) && h in s.runners && h.taskId in s.table && s.table[h.taskId].taskId == h.taskId
      && Terminal(target)
    requires Terminal(s.table[h.taskId].state) || target in AllowedTransitions(s.table[h.taskId].state)
      || s.table[h.taskId].state == Recovering
    ensures NotReplayed(Finish(SettleAs(s, h.taskId, target, error, result, now), h), h.taskId)
  {
    SettleFinishIs(s, h, target, error, result, now);
    OutcomeAdvances(s.table[h.taskId], target, error, result, now);
    EndedNotReplayed(s, Finish(SettleAs(s, h.taskId, target, error, result, now), h), h);
  }

  /** In the worker call the record is over, Running, or, after a start, Recovering. */
  lemma CallingOver(s: State, h: Handle)
    requires Sane(s) && NotReplayed(s, h.taskId) && h in s.runners && s.runners[h].pc.Calling?
    ensures h.taskId in s.table && s.table[h.taskId].taskId == h.taskId
    ensures Terminal(s.table[h.taskId].state) || s.table[h.taskId].state == Running
      || s.table[h.taskId].state == Recovering
  {
    OwnRecords(s, h.taskId);
    ViewOf(s, h);
  }

  lemma FailureNotReplayed(s: State, h: Handle, failure: Failure, now: Time)
    requires Sane(s) && NotReplayed(s, h.taskId) && h in s.runners && s.runners[h].pc.Calling?
    ensures NotReplayed(Finish(HandleFailure(s, h.taskId, failure, now), h), h.taskId)
  {
    CallingOver(s, h);
    SettledNotReplayed(s, h, FailureTarget(failure), Some(FailureMessage(failure)), None, now);
  }

  lemma ReceiveNotReplayed(s: State, h: Handle, reply: Reply, now: Time)
    requires Sane(s) && NotReplayed(s, h.taskId) && h in s.runners && s.runners[h].pc.Calling?
    ensures NotReplayed(Receive(s, h, reply, now), h.taskId)
  {
    CallingOver(s, h);
    if Open(s, h.taskId) {
      ReceiveIs(s, h, reply, now);
      var failure := ReplyFailure(s.table[h.taskId], reply);
      if failure.Some? {
        FailureNotReplayed(s, h, failure.value, now);
      } else {
        SettledNotReplayed(s, h, Completed, None, Some(reply.result), now);
      }
    } else {
      ReceiveLate(s, h, reply, now);
      SettledNotReplayed(s, h, Completed, None, Some(""), now);
    }
  }

  lemma InterruptNotReplayed(s: State, h: Handle, now: Time)
    requires Sane(s) && NotReplayed(s, h.taskId) && h in s.runners
    ensures NotReplayed(Interrupt(s, h, now), h.taskId)
  {
    OwnRecords(s, h.taskId);
    CancelEdge(h.taskId, s.table[h.taskId], s.supply);
    SettledNotReplayed(s, h, Cancelled, Some(BACKGROUND_CANCELLED), None, now);
  }

  lemma NobodyAsleep(s: State, h: Handle)
    requires Sane(s) && NotReplayed(s, h.taskId) && h in s.runners
    ensures !s.runners[h].pc.Sleeping?
  {
    OwnRecords(s, h.taskId);
    ViewOf(s, h);
  }

  lemma OwnNotReplayed(s: State, l: Label)
    requires Sane(s) && Enabled(s, l) && Own(l) && NotReplayed(s, l.h.taskId)
    ensures NotReplayed(Next(s, l), l.h.taskId)
  {
    match l {
      case FirstStep(h, front, now) => FirstNotReplayed(s, h, front, now);
      case WakeStep(h, _, _) => NobodyAsleep(s, h);
      case SendStep(h) => SendNotReplayed(s, h);
      case ReceiveStep(h, reply, now) => ReceiveNotReplayed(s, h, reply, now);
      case InterruptStep(h, now) => InterruptNotReplayed(s, h, now);
    }
  }

  // ----- The caller's cancel -----

  lemma OverNotReplayed(s: State, s': State, id: TaskId)
    requires NotReplayed(s, id) && id in s.table && id in s'.table && Terminal(s'.table[id].state)
    requires s'.runners.Keys == s.runners.Keys && forall h :: h in s.runners ==> s'.runners[h].pc == s.runners[h].pc
    requires s'.phase == s.phase && s'.background == s.background
    ensures NotReplayed(s', id)
  {
    forall h | h in s'.runners && h.taskId == id ensures h in s.runners && ViewOk(s', h) {
      assert h in s.runners.Keys;
      ViewOf(s, h);
    }
  }

  lemma CancelNotReplayed(s: State, id: TaskId, now: Time)
    requires Sane(s) && NotReplayed(s, id) && id in s.table
    ensures NotReplayed(Cancel(s, id, now), id)
  {
    OwnRecords(s, id);
    CancelIs(s, id, now);
    CancelAdvances(s, id, now);
    CancelKeepsAttempts(s, id, now);
    OverNotReplayed(s, Cancel(s, id, now), id);
  }

  // ----- Submission -----

  lemma CreateNotReplayed(s: State, r: Request)
    requires Sane(s) && Creates(s, r)
    ensures NotReplayed(Submit(s, r), s.supply)
  {
    CreateIs(s, r);
    var s', id := Submit(s, r), s.supply;
    forall h | h in s'.runners && h.taskId == id ensures h == Handle(id, id) && ViewOk(s', h) {
      assert h in s.runners ==> h.taskId in s.table;
    }
  }

  lemma ApartNotReplayed(s: State, s': State, task: TaskRecord, id: TaskId)
    requires NotReplayed(s, id) && id != s.supply
    requires s'.table == s.table[s.supply := task] && s'.phase == s.phase && s'.deferred == s.deferred
    requires s'.runners == s.runners[Handle(s.supply, s.supply) := Runner(NotStarted, false)]
    requires s'.background == s.background[s.supply := Handle(s.supply, s.supply)]
    ensures NotReplayed(s', id)
  {
    if id in s'.table {
      forall h | h in s'.runners && h.taskId == id ensures h in s.runners && ViewOk(s', h) {
        ViewOf(s, h);
        if Follows(s.runners, s.phase, s.background, h) {
          var g :| Carries(s.runners, h.taskId, g)
            && (Reached(s.phase, s.background, g) || Reached(s.phase, s.background, h));
          assert Carries(s'.runners, h.taskId, g);
        }
      }
    }
  }

  lemma SubmitNotReplayed(s: State, r: Request, id: TaskId)
    requires Sane(s) && NotReplayed(s, id)
    ensures NotReplayed(Submit(s, r), id)
  {
    if Creates(s, r) {
      CreateIs(s, r);
      if id == s.supply {
        CreateNotReplayed(s, r);
      } else {
        ApartNotReplayed(s, Submit(s, r), NewRecord(s, r, Admission(s, r).value), id);
      }
    }
  }

  // ----- Start -----

  lemma FollowsNobody(s: State, h: Handle)
    requires s.phase == Idle && h in s.runners && s.runners[h].pc.NotStarted?
    requires h.taskId in s.background ==> OneRunner(s.runners, h.taskId)
    ensures !Follows(s.runners, s.phase, s.background, h)
  {
    forall g | Carries(s.runners, h.taskId, g)
      ensures !Reached(s.phase, s.background, g) && !Reached(s.phase, s.background, h)
    {
      assert g != h;
    }
  }

  /**
   While idle nobody waits to follow a Running record: whoever has not begun is alone, or the record is not Running.
   */
  lemma IdleRunningCalls(s: State, h: Handle)
    requires Sane(s) && NotReplayed(s, h.taskId) && s.phase == Idle && h in s.runners && h.taskId in s.table
    requires s.table[h.taskId].state == Running || s.table[h.taskId].state == Recovering
    ensures s.runners[h].pc.Calling?
  {
    ViewOf(s, h);
    if s.runners[h].pc.NotStarted? {
      FollowsNobody(s, h);
    }
  }

  /** The record after a start, and who works on it. */
  lemma FoundView(s: State, s': State, now: Time, h: Handle)
    requires Sane(s) && NotReplayed(s, h.taskId) && s.phase == Idle && s'.phase == Serving && h in s.runners
      && h in s'.runners
    requires s'.runners[h] == s.runners[h] && s'.table == MarkRecovering(s.table, now)
    ensures h.taskId in s'.table && ViewOk(s', h)
  {
    OwnRecords(s, h.taskId);
    ViewOf(s, h);
    MarkedOk(h.taskId, s.table[h.taskId], now, s.supply);
    if s.table[h.taskId].state == Running || s.table[h.taskId].state == Recovering {
      IdleRunningCalls(s, h);
    }
  }

  lemma NewView(s: State, s': State, now: Time, h: Handle)
    requires h.taskId in s.table && s.table[h.taskId].state == Pending
    requires h in s'.runners && s'.runners[h] == Runner(NotStarted, false) && s'.table == MarkRecovering(s.table, now)
    ensures ViewOk(s', h)
  {
  }

  lemma StartedView(s: State, s': State, ids: set<TaskId>, now: Time, h: Handle)
    requires Sane(s) && NotReplayed(s, h.taskId) && s.phase == Idle && s'.phase == Serving && h.taskId in s.table
    requires Joined(s.runners, s'.runners, ids, s.supply) && s'.table == MarkRecovering(s.table, now)
    requires h.taskId in ids ==> s.table[h.taskId].state == Pending
    requires h in s'.runners
    ensures ViewOk(s', h)
  {
    if h in s.runners {
      FoundView(s, s', now, h);
    } else {
      NewView(s, s', now, h);
    }
  }

  lemma StartedPair(runners: map<Handle, Runner>, runners': map<Handle, Runner>, background: map<TaskId, Handle>,
                    background': map<TaskId, Handle>, ids: set<TaskId>, serial: nat, id: TaskId)
    requires Paired(runners, Idle, background, id)
    requires Joined(runners, runners', ids, serial) && Registered(background, background', ids, serial)
    requires id in ids ==> id !in background
    ensures Paired(runners', Serving, background', id)
  {
    if id in ids {
      forall h | h in runners && h.taskId == id ensures !Reached(Serving, background', h) {
        assert h.serial < serial;
      }
      forall h | h in runners' && h !in runners && h.taskId == id ensures h == Handle(id, serial) {
      }
    } else {
      forall h | h in runners' && h.taskId == id
        ensures h in runners && (Reached(Serving, background', h) <==> Reached(Idle, background, h))
      {
      }
    }
  }

  lemma RegisteredIsActive(s: State, id: TaskId)
    requires BackgroundOk(s.background, s.runners)
    ensures id in ActiveIds(s) <==> id in s.background
  {
    if id in s.background {
      assert s.background[id] in s.runners;
    }
  }

  lemma RefusedScheduled(policy: RecoveryPolicy, id: TaskId, r: TaskRecord, now: Time, supply: nat)
    requires RefusesReplay(policy, r.idempotencyKey) && RecordOk(id, r, supply)
    ensures Scheduled(policy, Marked(r, now)) <==> r.state == Pending
    ensures Marked(r, now).state == Recovering ==> !Terminal(Marked(r, now).state)
  {
  }

  lemma ScheduleMembers(s: State, marked: Table, id: TaskId)
    requires id in marked
    ensures id in ToSchedule(s, marked) <==> Scheduled(s.config.recovery.policy, marked[id]) && id !in ActiveIds(s)
    ensures id in Deferred(s, marked)
      <==> !Terminal(marked[id].state) && !Scheduled(s.config.recovery.policy, marked[id])
  {
  }

  /**
   A start gives a refused task a coroutine exactly over a Pending record that has none registered, and defers it when
   it is Recovering.
   */
  lemma RefusedSchedule(s: State, now: Time, id: TaskId)
    requires TableOk(s.table, s.supply) && BackgroundOk(s.background, s.runners) && id in s.table && RefusedAt(s, id)
    ensures var marked := MarkRecovering(s.table, now);
      && (id in ToSchedule(s, marked) <==> s.table[id].state == Pending && id !in s.background)
      && (Marked(s.table[id], now).state == Recovering ==> id in Deferred(s, marked))
  {
    assert RecordOk(id, s.table[id], s.supply);
    RefusedScheduled(s.config.recovery.policy, id, s.table[id], now, s.supply);
    RegisteredIsActive(s, id);
    ScheduleMembers(s, MarkRecovering(s.table, now), id);
    MarkedOk(id, s.table[id], now, s.supply);
  }

  lemma StartedNotReplayed(s: State, s': State, now: Time, id: TaskId)
    requires Sane(s) && NotReplayed(s, id) && RefusedAt(s, id) && s.phase == Idle && id in s.table
    requires var ids := ToSchedule(s, MarkRecovering(s.table, now));
      Joined(s.runners, s'.runners, ids, s.supply) && Registered(s.background, s'.background, ids, s.supply)
    requires s'.phase == Serving && s'.table == MarkRecovering(s.table, now)
      && s'.deferred == Deferred(s, MarkRecovering(s.table, now))
    ensures NotReplayed(s', id)
  {
    var ids := ToSchedule(s, MarkRecovering(s.table, now));
    RefusedSchedule(s, now, id);
    assert RecordOk(id, s.table[id], s.supply);
    MarkedOk(id, s.table[id], now, s.supply);
    StartedPair(s.runners, s'.runners, s.background, s'.background, ids, s.supply, id);
    forall h | h in s'.runners && h.taskId == id ensures ViewOk(s', h) {
      StartedView(s, s', ids, now, h);
    }
  }

  lemma StartNotReplayed(s: State, now: Time, id: TaskId)
    requires Sane(s) && NotReplayed(s, id) && RefusedAt(s, id) && s.phase == Idle
    ensures NotReplayed(Start(s, now), id)
  {
    if id in s.table {
      StartShape(s, now);
      StartedNotReplayed(s, Start(s, now), now, id);
    }
  }

  // ----- Stop, crash, reload -----

  lemma CrashNotReplayed(s: State, id: TaskId)
    ensures NotReplayed(Crash(s), id)
  {
  }

  lemma ReloadNotReplayed(s: State, config: Config, id: TaskId)
    requires NotReplayed(s, id)
    ensures NotReplayed(Reload(s, config), id)
  {
    forall h | h in s.runners && h.taskId == id && id in s.table ensures ViewOk(Reload(s, config), h) {
      ViewOf(s, h);
    }
  }

  /** The manager becomes idle with nobody that it reaches left. */
  lemma IdleNotReplayed(s: State, id: TaskId)
    requires NotReplayed(s, id) && forall h :: h in s.runners && h.taskId == id ==>
      !Reached(s.phase, s.background, h) && !Awaited(s.phase, h)
    ensures NotReplayed(StopEnd(s), id)
  {
    var s' := StopEnd(s);
    if id in s.table {
      forall h | h in s'.runners && h.taskId == id ensures ViewOk(s', h) {
        ViewOf(s, h);
      }
    }
  }

  lemma StopEndNotReplayed(s: State, id: TaskId)
    requires Sane(s) && NotReplayed(s, id) && Enabled(s, StopEndStep)
    ensures NotReplayed(StopEnd(s), id)
  {
    assert forall h :: h in s.runners.Keys ==> h !in s.phase.waiting;
    IdleNotReplayed(s, id);
  }

  /** A stop reaches whom the manager reached. */
  lemma FlaggedReached(s: State, h: Handle)
    requires BackgroundOk(s.background, s.runners) && s.phase == Serving
    ensures h in BackgroundHandles(s) <==> Reached(s.phase, s.background, h)
  {
    BackgroundIsHandled(s);
    HandlesLive(s);
  }

  lemma FlaggedNotReplayed(s: State, s': State, id: TaskId)
    requires BackgroundOk(s.background, s.runners) && NotReplayed(s, id) && s.phase == Serving && id in s.table
    requires s' == s.(runners := Flagged(s.runners, BackgroundHandles(s)), phase := Stopping(BackgroundHandles(s)))
    ensures NotReplayed(s', id)
  {
    forall g ensures Reached(s'.phase, s'.background, g) <==> Reached(s.phase, s.background, g) {
      FlaggedReached(s, g);
    }
    forall h | h in s'.runners && h.taskId == id ensures h in s.runners && ViewOk(s', h) {
      assert h in s.runners.Keys;
      ViewOf(s, h);
      if Follows(s.runners, s.phase, s.background, h) {
        var g :| Carries(s.runners, h.taskId, g)
          && (Reached(s.phase, s.background, g) || Reached(s.phase, s.background, h));
        assert Carries(s'.runners, h.taskId, g);
      }
    }
  }

  lemma StopBeginNotReplayed(s: State, id: TaskId)
    requires Sane(s) && NotReplayed(s, id)
    ensures NotReplayed(StopBegin(s), id)
  {
    if s.phase == Serving && BackgroundHandles(s) == {} {
      NobodyRegistered(s);
      IdleNotReplayed(s, id);
    } else if s.phase == Serving && id in s.table {
      FlaggedNotReplayed(s, StopBegin(s), id);
    }
  }

  lemma SwitchNotReplayed(s: State, id: TaskId)
    requires Sane(s) && NotReplayed(s, id)
    ensures NotReplayed(SwitchStore(s), id)
  {
    if s.phase == Serving && ActiveIds(s) == {} {
      NobodyRegistered(s);
      IdleNotReplayed(s, id);
    }
  }

  // ----- Every step -----

  lemma ControlNotReplayed(s: State, l: Label, id: TaskId)
    requires Sane(s) && Enabled(s, l) && NotReplayed(s, id) && RefusedAt(s, id)
    requires l.StartStep? || l.StopBeginStep? || l.StopEndStep? || l.CrashStep? || l.ReloadStep? || l.SwitchStoreStep?
    ensures NotReplayed(Next(s, l), id)
  {
    match l {
      case StartStep(now) => if s.phase == Idle { StartNotReplayed(s, now, id); }
      case StopBeginStep => StopBeginNotReplayed(s, id);
      case StopEndStep => StopEndNotReplayed(s, id);
      case CrashStep => CrashNotReplayed(s, id);
      case ReloadStep(config) => ReloadNotReplayed(s, config, id);
      case SwitchStoreStep => SwitchNotReplayed(s, id);
    }
  }

  lemma CancelStepNotReplayed(s: State, t: TaskId, now: Time, id: TaskId)
    requires Sane(s) && NotReplayed(s, id)
    ensures NotReplayed(Cancel(s, t, now), id)
  {
    if t in s.table && t == id {
      CancelNotReplayed(s, id, now);
    } else if t in s.table {
      CancelSane(s, t, now);
      OtherNotReplayed(s, Cancel(s, t, now), t, id);
    }
  }

  lemma StepNotReplayed(s: State, l: Label, id: TaskId)
    requires Sane(s) && Enabled(s, l) && NotReplayed(s, id) && RefusedAt(s, id)
    ensures NotReplayed(Next(s, l), id)
  {
    if Own(l) {
      if l.h.taskId == id {
        OwnNotReplayed(s, l);
      } else {
        OwnStepSane(s, l);
        OtherNotReplayed(s, Next(s, l), l.h.taskId, id);
      }
    } else if l.SubmitStep? {
      SubmitNotReplayed(s, l.request, id);
    } else if l.CancelStep? {
      CancelStepNotReplayed(s, l.taskId, l.now, id);
    } else {
      ControlNotReplayed(s, l, id);
    }
  }

  /** The policy in force refuses to replay the task, up to state n. */
  ghost predicate RefusedUpTo(run: Run, n: nat, id: TaskId)
    requires n < |run.states|
  {
    forall i :: 0 <= i <= n ==> RefusedAt(run.states[i], id)
  }

  lemma {:induction false} RunNotReplayed(run: Run, n: nat, id: TaskId)
    requires IsRun(run) && n < |run.states| && RefusedUpTo(run, n, id)
    ensures NotReplayed(run.states[n], id)
  {
    if n > 0 {
      RunNotReplayed(run, n - 1, id);
      StepFacts(run, n - 1);
      StepNotReplayed(run.states[n - 1], run.labels[n - 1], id);
    }
  }

  // ----- Never lost, never reopened -----

  /**
   In every run a task that the policy refuses to replay is registered while serving, or the last start deferred it.
   */
  lemma RefusedNeverLost(run: Run, n: nat, id: TaskId)
    requires IsRun(run) && n < |run.states| && RefusedUpTo(run, n, id)
    requires run.states[n].phase == Serving && Open(run.states[n], id)
    ensures id in ActiveIds(run.states[n])
      || (run.states[n].table[id].state == Recovering && id in run.states[n].deferred)
  {
    RunNotReplayed(run, n, id);
    RunSane(run, n);
    assert RecordOk(id, run.states[n].table[id], run.states[n].supply);
  }

  lemma FirstKeepsOver(s: State, h: Handle, front: Frontmatter, now: Time)
    requires h in s.runners && h.taskId in s.table && Terminal(s.table[h.taskId].state)
    ensures First(s, h, front, now).table == s.table
  {
  }

  lemma SettleKeepsOver(s: State, id: TaskId, target: TaskState, error: Option<string>, result: Option<Payload>,
                        now: Time)
    requires id in s.table && Terminal(s.table[id].state)
    ensures SettleAs(s, id, target, error, result, now).table == s.table
  {
  }

  lemma OwnKeepsOver(s: State, l: Label)
    requires Sane(s) && Enabled(s, l) && Own(l) && !l.WakeStep? && l.h.taskId in s.table
      && Terminal(s.table[l.h.taskId].state)
    ensures Next(s, l).table == s.table
  {
    match l {
      case FirstStep(h, front, now) => FirstKeepsOver(s, h, front, now);
      case SendStep(h) =>
      case ReceiveStep(h, reply, now) => ReceiveLate(s, h, reply, now);
      case InterruptStep(h, now) => SettleKeepsOver(s, h.taskId, Cancelled, Some(BACKGROUND_CANCELLED), None, now);
    }
  }

  lemma WithinKeepsOther(s: State, s': State, t: TaskId, id: TaskId)
    requires Within(s, s', t) && id in s.table && id != t
    ensures id in s'.table && s'.table[id] == s.table[id]
  {
  }

  lemma CancelKeepsOver(s: State, t: TaskId, now: Time, id: TaskId)
    requires Sane(s) && id in s.table && Terminal(s.table[id].state)
    ensures id in Cancel(s, t, now).table && Cancel(s, t, now).table[id] == s.table[id]
  {
    if t in s.table && t != id {
      CancelSane(s, t, now);
      WithinKeepsOther(s, Cancel(s, t, now), t, id);
    }
  }

  lemma StartKeepsOver(s: State, now: Time, id: TaskId)
    requires id in s.table && Terminal(s.table[id].state)
    ensures id in Start(s, now).table && Start(s, now).table[id] == s.table[id]
  {
    OpenMeansRecoverable(s.table[id].state);
  }

  /** Only a sleeper that wakes can change a record that is over. */
  lemma OnlyWakesReopen(s: State, l: Label, id: TaskId)
    requires Sane(s) && Enabled(s, l) && id in s.table && Terminal(s.table[id].state)
      && !(l.WakeStep? && l.h.taskId == id)
    ensures id in Next(s, l).table && Next(s, l).table[id] == s.table[id]
  {
    if Own(l) {
      if l.h.taskId == id {
        OwnKeepsOver(s, l);
      } else {
        OwnStepSane(s, l);
        WithinKeepsOther(s, Next(s, l), l.h.taskId, id);
      }
    } else if l.CancelStep? {
      CancelKeepsOver(s, l.taskId, l.now, id);
    } else if l.StartStep? {
      StartKeepsOver(s, l.now, id);
    } else {
      ControlKeepsTask(s, l, id);
    }
  }

  lemma RefusedFrozenStep(run: Run, i: nat, id: TaskId)
    requires IsRun(run) && i < |run.labels| && RefusedUpTo(run, i, id)
    requires id in run.states[i].table && Terminal(run.states[i].table[id].state)
    ensures id in run.states[i + 1].table && run.states[i + 1].table[id] == run.states[i].table[id]
  {
    StepFacts(run, i);
    var s, l := run.states[i], run.labels[i];
    if l.WakeStep? && l.h.taskId == id {
      RunNotReplayed(run, i, id);
      NobodyAsleep(s, l.h);
    } else {
      OnlyWakesReopen(s, l, id);
    }
  }

  /** In every run the record of a task that the policy refuses to replay keeps every field once terminal. */
  lemma {:induction false} RefusedFrozen(run: Run, i: nat, j: nat, id: TaskId)
    requires IsRun(run) && i <= j < |run.states| && RefusedUpTo(run, j, id)
    requires id in run.states[i].table && Terminal(run.states[i].table[id].state)
    ensures id in run.states[j].table && run.states[j].table[id] == run.states[i].table[id]
    decreases j
  {
    if i < j {
      RefusedFrozen(run, i, j - 1, id);
      RefusedFrozenStep(run, j - 1, id);
    }
  }

  // ----- Without a delay nobody sleeps -----

  ghost predicate Awake(s: State, id: TaskId) {
    forall h :: h in s.runners && h.taskId == id ==> !s.runners[h].pc.Sleeping?
  }

  /** Until now there was no recovery delay while the task was there. */
  ghost predicate UndelayedUpTo(run: Run, n: nat, id: TaskId)
    requires n < |run.states|
  {
    forall i :: 0 <= i <= n && id in run.states[i].table ==> run.states[i].config.recovery.delaySeconds == 0.0
  }

  lemma AwakeFrom(s: State, s': State, h: Handle, id: TaskId)
    requires Awake(s, id) && s'.runners.Keys <= s.runners.Keys
    requires forall g :: g in s'.runners && g != h ==> s'.runners[g].pc == s.runners[g].pc
    requires h in s'.runners && h.taskId == id ==> !s'.runners[h].pc.Sleeping?
    ensures Awake(s', id)
  {
    assert forall g :: g in s'.runners ==> g in s.runners.Keys;
  }

  lemma AttemptAwake(s: State, h: Handle, task: TaskRecord, now: Time, id: TaskId)
    requires TableOk(s.table, s.supply) && h in s.runners && h.taskId in s.table && Awake(s, id)
    requires RecordOk(h.taskId, task, s.supply) && SameTask(s.table[h.taskId], task) && !Terminal(task.state)
    ensures Awake(TakeAttempt(s, h, task, now), id)
  {
    if task.state != Running {
      assert Takeable(s, h, task);
      TakeAttemptIs(s, h, task, now);
      AwakeFrom(s, Taken(s, h, task, now), h, id);
    } else {
      AwakeFrom(s, SetPc(s, h, Calling(task, false, false)), h, id);
    }
  }

  lemma FirstAwake(s: State, h: Handle, front: Frontmatter, now: Time)
    requires Sane(s) && h in s.runners && Awake(s, h.taskId) && s.config.recovery.delaySeconds == 0.0
    ensures Awake(First(s, h, front, now), h.taskId)
  {
    FirstReadsRecord(s, h, front, now);
    OwnRecords(s, h.taskId);
    if s.runners[h].cancelRequested || !Open(s, h.taskId) {
      AwakeFrom(s, Finish(s, h), h, h.taskId);
    } else {
      AttemptAwake(s, h, s.table[h.taskId], now, h.taskId);
    }
  }

  lemma SettledAwake(s: State, h: Handle, target: TaskState, error: Option<string>, result: Option<Payload>, now: Time)
    requires h in s.runners && h.taskId in s.table && s.table[h.taskId].taskId == h.taskId && Awake(s, h.taskId)
    ensures Awake(Finish(SettleAs(s, h.taskId, target, error, result, now), h), h.taskId)
  {
    SettleFinishIs(s, h, target, error, result, now);
    AwakeFrom(s, Finish(SettleAs(s, h.taskId, target, error, result, now), h), h, h.taskId);
  }

  lemma InterruptAwake(s: State, h: Handle, now: Time)
    requires Sane(s) && h in s.runners && Awake(s, h.taskId)
    ensures Awake(Interrupt(s, h, now), h.taskId)
  {
    assert RecordOk(h.taskId, s.table[h.taskId], s.supply);
    SettledAwake(s, h, Cancelled, Some(BACKGROUND_CANCELLED), None, now);
  }

  lemma SendAwake(s: State, h: Handle)
    requires h in s.runners && s.runners[h].pc.Calling? && Awake(s, h.taskId)
    ensures Awake(Send(s, h), h.taskId)
  {
    AwakeFrom(s, Send(s, h), h, h.taskId);
  }

  lemma ReceiveAwake(s: State, h: Handle, reply: Reply, now: Time)
    requires Sane(s) && h in s.runners && Awake(s, h.taskId)
    ensures Awake(Receive(s, h, reply, now), h.taskId)
  {
    assert RecordOk(h.taskId, s.table[h.taskId], s.supply);
    if Open(s, h.taskId) {
      ReceiveIs(s, h, reply, now);
      var failure := ReplyFailure(s.table[h.taskId], reply);
      if failure.Some? {
        SettledAwake(s, h, FailureTarget(failure.value), Some(FailureMessage(failure.value)), None, now);
      } else {
        SettledAwake(s, h, Completed, None, Some(reply.result), now);
      }
    } else {
      ReceiveLate(s, h, reply, now);
      AwakeFrom(s, Finish(s, h), h, h.taskId);
    }
  }

  lemma OwnAwake(s: State, l: Label)
    requires Sane(s) && Enabled(s, l) && Own(l) && Awake(s, l.h.taskId) && s.config.recovery.delaySeconds == 0.0
    ensures Awake(Next(s, l), l.h.taskId)
  {
    match l {
      case FirstStep(h, front, now) => FirstAwake(s, h, front, now);
      case WakeStep(_, _, _) =>
      case SendStep(h) => SendAwake(s, h);
      case ReceiveStep(h, reply, now) => ReceiveAwake(s, h, reply, now);
      case InterruptStep(h, now) => InterruptAwake(s, h, now);
    }
  }

  lemma CancelAwake(s: State, t: TaskId, now: Time, id: TaskId)
    requires Sane(s) && Awake(s, id)
    ensures Awake(Cancel(s, t, now), id)
  {
    if t in s.table {
      assert RecordOk(t, s.table[t], s.supply);
      CancelKeepsAttempts(s, t, now);
      assert forall h :: h in Cancel(s, t, now).runners ==> h in s.runners.Keys;
    }
  }

  lemma ControlAwake(s: State, l: Label, id: TaskId)
    requires RunnersOk(s.runners, s.table, s.supply) && Enabled(s, l) && Awake(s, id) && !Own(l) && !l.SubmitStep?
      && !l.CancelStep?
    ensures Awake(Next(s, l), id)
  {
    if l.StartStep? && s.phase == Idle {
      StartShape(s, l.now);
    }
  }

  lemma SubmitAwake(s: State, r: Request, id: TaskId)
    requires Sane(s) && Awake(s, id)
    ensures Awake(Submit(s, r), id)
  {
    if Creates(s, r) {
      CreateIs(s, r);
    }
  }

  lemma OtherAwake(s: State, s': State, t: TaskId, id: TaskId)
    requires Within(s, s', t) && t != id && Awake(s, id)
    ensures Awake(s', id)
  {
    assert forall h :: h in s'.runners ==> h in s.runners.Keys;
  }

  lemma StepAwake(s: State, l: Label, id: TaskId)
    requires Sane(s) && Enabled(s, l) && Awake(s, id) && (id in s.table ==> s.config.recovery.delaySeconds == 0.0)
    ensures Awake(Next(s, l), id)
  {
    if Own(l) {
      if l.h.taskId == id {
        OwnAwake(s, l);
      } else {
        OwnStepSane(s, l);
        OtherAwake(s, Next(s, l), l.h.taskId, id);
      }
    } else if l.SubmitStep? {
      SubmitAwake(s, l.request, id);
    } else if l.CancelStep? {
      CancelAwake(s, l.taskId, l.now, id);
    } else {
      ControlAwake(s, l, id);
    }
  }

  lemma {:induction false} RunAwake(run: Run, n: nat, id: TaskId)
    requires IsRun(run) && n < |run.states| && UndelayedUpTo(run, n, id)
    ensures Awake(run.states[n], id)
  {
    if n > 0 {
      RunAwake(run, n - 1, id);
      StepFacts(run, n - 1);
      StepAwake(run.states[n - 1], run.labels[n - 1], id);
    }
  }

  lemma UndelayedFrozenStep(run: Run, i: nat, id: TaskId)
    requires IsRun(run) && i < |run.labels| && UndelayedUpTo(run, i, id)
    requires id in run.states[i].table && Terminal(run.states[i].table[id].state)
    ensures id in run.states[i + 1].table && run.states[i + 1].table[id] == run.states[i].table[id]
  {
    StepFacts(run, i);
    RunAwake(run, i, id);
    OnlyWakesReopen(run.states[i], run.labels[i], id);
  }

  /** In every run a record keeps every field once terminal while there is no recovery delay. */
  lemma {:induction false} UndelayedFrozen(run: Run, i: nat, j: nat, id: TaskId)
    requires IsRun(run) && i <= j < |run.states| && UndelayedUpTo(run, j, id)
    requires id in run.states[i].table && Terminal(run.states[i].table[id].state)
    ensures id in run.states[j].table && run.states[j].table[id] == run.states[i].table[id]
    decreases j
  {
    if i < j {
      UndelayedFrozen(run, i, j - 1, id);
      UndelayedFrozenStep(run, j - 1, id);
    }
  }
}
