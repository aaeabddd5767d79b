/**
 The task manager object (ai_bridge/manager.py). Each method is the code between two
 suspension points, changes the manager, its store and its metrics in place, and is proved to
 be the step of `Protocol` with that name; the theorems about runs then speak of this object.
 */
module Managers {
  import opened Wrappers
  import opened TaskStates
  import opened TaskTable
  import opened TaskStores
  import opened Counting
  import opened Metrics
  import opened PathPolicy
  import opened Protocol
  import opened Invariant
  import Effects

  datatype CallError = Refused(refusal: Refusal) | KeyTaken

  lemma SettlesOpen(s: State, id: TaskId, target: TaskState, error: Option<string>, result: Option<Payload>, now: Time)
    requires Open(s, id) && s.table[id].Transition(target, now, error, result).Ok?
    ensures Protocol.SettleAs(s, id, target, error, result, now)
      == Protocol.Settle(s, s.table[id].Transition(target, now, error, result).value)
    ensures s.table[id].Transition(target, now, error, result).value.taskId == s.table[id].taskId
    ensures s.table[id].Transition(target, now, error, result).value.idempotencyKey == s.table[id].idempotencyKey
  {
  }

  /** Every number handed out is below the next one. */
  ghost predicate Numbered(rows: Table, runners: map<Handle, Runner>, background: map<TaskId, Handle>, supply: nat) {
    && (forall id :: id in rows ==> id < supply)
    && (forall h :: h in runners ==> h.serial < supply)
    && (forall id :: id in background ==> id < supply && background[id].serial < supply)
  }

  /** The coroutines and handles after `start` has scheduled what it schedules. */
  ghost predicate AllScheduled(s: State, now: Time, serial: nat, runners: map<Handle, Runner>, background: map<TaskId,
                               Handle>) {
    var ids := ToSchedule(s, TaskTable.MarkRecovering(s.table, now));
    runners == WithCoroutines(s.runners, ids, serial) && background == WithHandles(s.background, ids, serial)
  }

  lemma Recovered(s: State, now: Time, rows: Table, runners: map<Handle, Runner>, background: map<TaskId, Handle>)
    requires s.phase == Idle && rows == TaskTable.MarkRecovering(s.table, now)
      && AllScheduled(s, now, s.supply, runners, background)
    requires Numbered(s.table, s.runners, s.background, s.supply)
    ensures Numbered(rows, runners, background, s.supply + 1)
    ensures Protocol.Start(s, now)
      == State(rows, runners, background, Serving, s.config, s.counters, s.log, s.boot, Deferred(s, rows), s.supply + 1)
  {
  }

  // ----- Facts about the loop of `start` -----

  /** The ids among the first i listed tasks that `start` schedules. */
  ghost function ScheduledAmong(policy: RecoveryPolicy, tasks: seq<TaskRecord>, i: nat,
                                active: set<TaskId>): set<TaskId>
    requires i <= |tasks|
  {
    set j | 0 <= j < i && Scheduled(policy, tasks[j]) && tasks[j].taskId !in active :: tasks[j].taskId
  }

  lemma ScheduledStep(policy: RecoveryPolicy, tasks: seq<TaskRecord>, i: nat, active: set<TaskId>)
    requires i < |tasks|
    ensures ScheduledAmong(policy, tasks, i + 1, active)
      == ScheduledAmong(policy, tasks, i, active)
         + (if Scheduled(policy, tasks[i]) && tasks[i].taskId !in active then {tasks[i].taskId} else {})
  {
    var more := if Scheduled(policy, tasks[i]) && tasks[i].taskId !in active then {tasks[i].taskId} else {};
    forall id | id in ScheduledAmong(policy, tasks, i, active) + more
      ensures id in ScheduledAmong(policy, tasks, i + 1, active) {
      if id in more {
        assert tasks[i].taskId == id;
      }
    }
  }

  /** A listed task whose turn has not come is live in the background exactly if it was before the start. */
  lemma NotYetScheduled(before: State, runners: map<Handle, Runner>, background: map<TaskId, Handle>,
                        policy: RecoveryPolicy, tasks: seq<TaskRecord>, i: nat, serial: nat)
    requires i < |tasks| && forall j, k :: 0 <= j < k < |tasks| ==> tasks[j].taskId != tasks[k].taskId
    requires forall id :: id in before.background ==> before.background[id].serial < serial
    requires Joined(before.runners, runners, ScheduledAmong(policy, tasks, i, ActiveIds(before)), serial)
    requires Registered(before.background, background, ScheduledAmong(policy, tasks, i, ActiveIds(before)), serial)
    ensures var id := tasks[i].taskId; (id in background && background[id] in runners) <==> id in ActiveIds(before)
  {
    assert tasks[i].taskId !in ScheduledAmong(policy, tasks, i, ActiveIds(before));
  }

  lemma JoinOneMore(runners: map<Handle, Runner>, now: map<Handle, Runner>, background: map<TaskId, Handle>,
                    backgroundNow: map<TaskId, Handle>,
                    ids: set<TaskId>, serial: nat, id: TaskId)
    requires Joined(runners, now, ids, serial) && Registered(background, backgroundNow, ids, serial)
    ensures Joined(runners, now[Handle(id, serial) := Runner(NotStarted, false)], ids + {id}, serial)
    ensures Registered(background, backgroundNow[id := Handle(id, serial)], ids + {id}, serial)
  {
  }

  /** The first i listed tasks have had their turn. */
  ghost predicate ScheduledUpTo(before: State, tasks: seq<TaskRecord>, i: nat, serial: nat,
                                runners: map<Handle, Runner>, background: map<TaskId, Handle>)
    requires i <= |tasks|
  {
    var ids := ScheduledAmong(before.config.recovery.policy, tasks, i, ActiveIds(before));
    Joined(before.runners, runners, ids, serial) && Registered(before.background, background, ids, serial)
  }

  /** The next task gets a coroutine exactly if it is to be scheduled and has no live one in the background by now. */
  lemma ScheduleNext(before: State, tasks: seq<TaskRecord>, i: nat, serial: nat, runners: map<Handle, Runner>,
                     background: map<TaskId, Handle>)
    requires i < |tasks| && forall j, k :: 0 <= j < k < |tasks| ==> tasks[j].taskId != tasks[k].taskId
    requires forall id :: id in before.background ==> before.background[id].serial < serial
    requires ScheduledUpTo(before, tasks, i, serial, runners, background)
    ensures var id, h := tasks[i].taskId, Handle(tasks[i].taskId, serial);
      if Scheduled(before.config.recovery.policy, tasks[i]) && !(id in background && background[id] in runners)
      then ScheduledUpTo(before, tasks, i + 1, serial, runners[h := Runner(NotStarted, false)], background[id := h])
      else ScheduledUpTo(before, tasks, i + 1, serial, runners, background)
  {
    var policy, active := before.config.recovery.policy, ActiveIds(before);
    ScheduledStep(policy, tasks, i, active);
    NotYetScheduled(before, runners, background, policy, tasks, i, serial);
    JoinOneMore(before.runners, runners, before.background, background, ScheduledAmong(policy, tasks, i, active),
      serial, tasks[i].taskId);
  }

  lemma MarkedOpen(task: TaskRecord, now: Time)
    ensures Terminal(Marked(task, now).state) <==> Terminal(task.state)
  {
    OpenMeansRecoverable(task.state);
  }

  /** After the last task, what was scheduled is what `Protocol.Start` schedules. */
  lemma ScheduledAll(before: State, now: Time, tasks: seq<TaskRecord>)
    requires Listing(tasks, MarkRecovering(before.table, now), IdsIn(before.table, RECOVERABLE_STATES, None))
    ensures ScheduledAmong(before.config.recovery.policy, tasks, |tasks|, ActiveIds(before))
      == ToSchedule(before, MarkRecovering(before.table, now))
  {
    var marked, policy := MarkRecovering(before.table, now), before.config.recovery.policy;
    forall id | id in ToSchedule(before, marked)
      ensures id in ScheduledAmong(policy, tasks, |tasks|, ActiveIds(before)) {
      OpenMeansRecoverable(before.table[id].state);
      assert id in IdsIn(before.table, RECOVERABLE_STATES, None) by { MarkedOpen(before.table[id], now); }
      var j :| 0 <= j < |tasks| && tasks[j].taskId == id;
    }
  }

  lemma SameCoroutines(before: map<Handle, Runner>, runners: map<Handle, Runner>, ids: set<TaskId>, serial: nat)
    requires Joined(before, runners, ids, serial)
    ensures runners == WithCoroutines(before, ids, serial)
  {
    assert forall h :: h in runners <==> h in WithCoroutines(before, ids, serial);
  }

  lemma SameRegistered(before: map<TaskId, Handle>, background: map<TaskId, Handle>, ids: set<TaskId>, serial: nat)
    requires Registered(before, background, ids, serial)
    ensures background == WithHandles(before, ids, serial)
  {
    assert forall id :: id in background <==> id in WithHandles(before, ids, serial);
  }

  lemma SameStart(before: State, runners: map<Handle, Runner>, background: map<TaskId, Handle>, ids: set<TaskId>,
                  serial: nat)
    requires Joined(before.runners, runners, ids, serial) && Registered(before.background, background, ids, serial)
    ensures runners == WithCoroutines(before.runners, ids, serial)
    ensures background == WithHandles(before.background, ids, serial)
  {
    SameCoroutines(before.runners, runners, ids, serial);
    SameRegistered(before.background, background, ids, serial);
  }

  // ----- The manager -----

  class TaskManager {
    const store: TaskStore
    const metrics: MetricsRegistry
    var config: Config
    var background: map<TaskId, Handle>
    var started: bool
    /** The coroutines that a `stop` in progress waits for. */
    var stopping: Option<set<Handle>>
    /** The coroutines of `_run_task` that the event loop holds, each with its local variables. */
    var runners: map<Handle, Runner>
    /** The next number `uuid4` has not handed out. */
    var supply: nat
    ghost var log: seq<Dispatch>
    ghost var boot: Table
    ghost var deferred: set<TaskId>

    ghost function View(): State
      reads this, store, metrics
    {
      State(store.rows, runners, background,
            if stopping.Some? then Stopping(stopping.value) else if started then Serving else Idle,
            config, Counters(metrics.tasksCreated, metrics.tasksCompleted), log, boot, deferred, supply)
    }

    ghost predicate Valid()
      reads this, store, metrics
    {
      && store.Valid() && metrics.Valid()
      && (stopping.Some? ==> started)
      && Numbered(store.rows, runners, background, supply)
    }

    /** A new process over the table its predecessor left, with the log of what was ever sent. */
    constructor (store: TaskStore, metrics: MetricsRegistry, config: Config, supply: nat, ghost log: seq<Dispatch>)
      requires store.Valid() && metrics.Valid() && metrics.tasksCreated == map[] && metrics.tasksCompleted == map[]
      requires forall id :: id in store.rows ==> id < supply
      ensures Valid() && this.store == store && this.metrics == metrics
      ensures View() == State(store.rows, map[], map[], Idle, config, Counters(map[], map[]), log, store.rows, {},
        supply)
    {
      this.store, this.metrics, this.config := store, metrics, config;
      background, runners, started, stopping := map[], map[], false, None;
      this.supply, this.log, boot, deferred := supply, log, store.rows, {};
    }

    // ----- call(mode="async") -----

    method ActiveCount() returns (n: nat)
      ensures n == |ActiveIds(View())|
    {
      n := |set id | id in background && background[id] in runners|;
      assert (set id | id in background && background[id] in runners) == ActiveIds(View());
    }

    method EnforceAsyncLimits(worker: WorkerId) returns (scope: Option<SaturatedScope>)
      ensures scope == Saturation(View(), worker)
    {
      var limits := config.limits;
      if CountByStates(store.rows, QUEUED_STATES, None) >= limits.globalPendingTasks {
        return Some(GlobalPending);
      }
      if CountByStates(store.rows, QUEUED_STATES, Some(worker)) >= limits.perWorkerPendingTasks {
        return Some(WorkerPending);
      }
      var active := ActiveCount();
      if active >= limits.globalActiveTasks {
        return Some(GlobalActive);
      }
      if limits.perWorkerActiveTasks.Some?
        && CountByStates(store.rows, ACTIVE_STATES, Some(worker)) >= limits.perWorkerActiveTasks.value {
        return Some(WorkerActive);
      }
      scope := None;
    }

    method Admit(r: Request) returns (admission: Result<string, Refusal>)
      ensures admission == Admission(View(), r)
    {
      if r.workerId !in config.workers {
        return Err(UnknownWorker);
      }
      var worker := config.workers[r.workerId];
      var resolved := ResolveDirectory(r.front, worker.writePaths);
      if resolved.Err? {
        return Err(BadDirectory(resolved.error));
      }
      if !worker.allowsAsync {
        return Err(ModeNotAllowed);
      }
      var scope := EnforceAsyncLimits(r.workerId);
      if scope.Some? {
        return Err(Saturated(scope.value));
      }
      admission := Ok(resolved.value);
    }

    /** Gives the task a coroutine unless it has a live one in the background. */
    method Schedule(taskId: TaskId, serial: nat) returns (scheduled: bool)
      modifies this`runners, this`background
      ensures scheduled == !(taskId in old(background) && old(background)[taskId] in old(runners))
      ensures runners == if scheduled then old(runners)[Handle(taskId, serial) := Runner(NotStarted, false)]
        else old(runners)
      ensures background == if scheduled then old(background)[taskId := Handle(taskId, serial)] else old(background)
    {
      if taskId in background && background[taskId] in runners {
        return false;
      }
      runners := runners[Handle(taskId, serial) := Runner(NotStarted, false)];
      background := background[taskId := Handle(taskId, serial)];
      scheduled := true;
    }

    /** Count and schedule the row just inserted under the next number. */
    method Announce(worker: WorkerId)
      requires store.Valid() && metrics.Valid() && supply in store.rows
      requires supply !in background
      requires (stopping.Some? ==> started) && (forall id :: id in store.rows ==> id <= supply)
      requires (forall h :: h in runners ==> h.serial < supply)
      requires (forall id :: id in background ==> id < supply && background[id].serial < supply)
      modifies this`runners, this`background, this`supply, metrics`tasksCreated
      ensures Valid()
      ensures var s, h := old(View()), Handle(old(supply), old(supply));
        View() == s.(counters := s.counters.(created := Bumped(s.counters.created, (worker, Async))),
                     runners := s.runners[h := Runner(NotStarted, false)], background := s.background[s.supply := h],
                       supply := s.supply + 1)
    {
      metrics.IncTaskCreated(worker, Async);
      var scheduled := Schedule(supply, supply);
      supply := supply + 1;
    }

    /** Insert, count and schedule an admitted submission, unless a row holds its key. */
    method Insert(r: Request, directory: string) returns (stored: Result<TaskRecord, ()>)
      requires Valid() && Admission(View(), r) == Ok(directory)
      modifies this`runners, this`background, this`supply, store, metrics`tasksCreated
      ensures Valid() && View() == Submit(old(View()), r)
      ensures stored.Ok? <==> !KeyHeld(old(store.rows), r.key) || KeyGiven(r.key)
      ensures !KeyHeld(old(store.rows), r.key) ==> stored == Ok(NewRecord(old(View()), r, directory))
      ensures stored.Ok? ==>
                stored.value.taskId in store.rows && store.rows[stored.value.taskId] == stored.value
                && stored.value.idempotencyKey == r.key
    {
      var task := TaskRecord(supply, r.workerId, r.prompt, Some(directory), r.key, None, 0, Pending, None, None,
                             r.now, r.now, None, None, config.workers[r.workerId].asyncSeconds);
      assert task == NewRecord(View(), r, directory);
      var created;
      stored, created := store.CreateOrGet(task);
      if created {
        Announce(r.workerId);
      }
    }

    /**
     A refusal, the record of the new task, the record that holds the key, or the store's own refusal of an empty key in
     use.
     */
    method Call(r: Request) returns (outcome: Result<TaskRecord, CallError>)
      requires Valid()
      modifies this`runners, this`background, this`supply, store, metrics`tasksCreated
      ensures Valid() && View() == Submit(old(View()), r)
      ensures match outcome
              case Err(Refused(refusal)) => Admission(old(View()), r) == Err(refusal)
              case Err(KeyTaken) => Admission(old(View()), r).Ok? && KeyHeld(old(store.rows), r.key) && !KeyGiven(r.key)
              case Ok(task) =>
                && (Creates(old(View()), r) || Replays(old(View()), r))
                && task.taskId in store.rows && store.rows[task.taskId] == task && task.idempotencyKey == r.key
                && (Creates(old(View()), r) ==>
                  task.taskId == old(supply) && Effects.AsSubmitted(task, r, old(config)))
    {
      var admission := Admit(r);
      if admission.Err? {
        return Err(Refused(admission.error));
      }
      if Creates(View(), r) {
        Effects.NewAsSubmitted(View(), r);
      }
      var stored := Insert(r, admission.value);
      outcome := if stored.Ok? then Ok(stored.value) else Err(KeyTaken);
    }

    // ----- cancel -----

    /** Writes a new version of a stored row and counts its terminal state. */
    method Settle(settled: TaskRecord)
      requires Valid() && settled.taskId in store.rows
        && store.rows[settled.taskId].idempotencyKey == settled.idempotencyKey
      modifies store, metrics`tasksCompleted
      ensures Valid() && View() == Protocol.Settle(old(View()), settled)
    {
      PutSameKeyNeverConflicts(store.rows, settled);
      var written := store.Upsert(settled);
      metrics.IncTaskCompleted(settled.workerId, settled.state);
    }

    /** An open record: the transition, or its refusal, which is swallowed. */
    method SettleOpen(latest: TaskRecord, target: TaskState, error: Option<string>, result: Option<Payload>, now: Time)
      requires Valid() && Open(View(), latest.taskId) && latest == store.rows[latest.taskId]
      modifies store, metrics`tasksCompleted
      ensures Valid() && View() == Protocol.SettleAs(old(View()), latest.taskId, target, error, result, now)
    {
      var settled := latest.Transition(target, now, error, result);
      if settled.Ok? {
        SettlesOpen(View(), latest.taskId, target, error, result, now);
        Settle(settled.value);
      }
    }

    method SettleAs(id: TaskId, target: TaskState, error: Option<string>, result: Option<Payload>, now: Time)
      requires Valid()
      modifies store, metrics`tasksCompleted
      ensures Valid() && View() == Protocol.SettleAs(old(View()), id, target, error, result, now)
    {
      var latest := store.Get(id);
      if latest.None? || Terminal(latest.value.state) {
        return;
      }
      SettleOpen(latest.value, target, error, result, now);
    }

    method Cancel(id: TaskId, now: Time) returns (response: Option<TaskRecord>)
      requires Valid()
      modifies this`runners, store, metrics`tasksCompleted
      ensures Valid() && View() == Protocol.Cancel(old(View()), id, now)
      ensures response == if id in store.rows then Some(store.rows[id]) else None
      ensures Open(old(View()), id) && id in old(background) && old(background)[id] in old(runners) ==>
        old(background)[id] in runners && runners[old(background)[id]].cancelRequested
    {
      var task := store.Get(id);
      if task.None? || task.value.state in TERMINAL_STATES {
        return task;
      }
      if id in background && background[id] in runners {
        var h := background[id];
        runners := runners[h := runners[h].(cancelRequested := true)];
      }
      SettleAs(id, Cancelled, Some(CANCELLED_BY_CALLER), None, now);
      response := store.Get(id);
    }

    // ----- start and stop -----

    /** The loop of `start` over what `mark_recovering` listed. */
    method ScheduleAll(tasks: seq<TaskRecord>, serial: nat, ghost before: State, ghost now: Time)
      requires runners == before.runners && background == before.background && config == before.config
      requires forall h :: h in runners ==> h.serial < serial
      requires forall id :: id in background ==> background[id].serial < serial
      requires Listing(tasks, MarkRecovering(before.table, now), IdsIn(before.table, RECOVERABLE_STATES, None))
      modifies this`runners, this`background
      ensures AllScheduled(before, now, serial, runners, background)
    {
      for i := 0 to |tasks|
        invariant ScheduledUpTo(before, tasks, i, serial, runners, background)
      {
        var task := tasks[i];
        ScheduleNext(before, tasks, i, serial, runners, background);
        if !(task.state in TERMINAL_STATES
          || (task.state == Recovering && !AllowsReplay(config.recovery.policy, task))) {
          var scheduled := Schedule(task.taskId, serial);
        }
      }
      ScheduledAll(before, now, tasks);
      SameStart(before, runners, background,
        ScheduledAmong(before.config.recovery.policy, tasks, |tasks|, ActiveIds(before)), serial);
    }

    /** The marked rows are stored: what is left of `start` is to schedule them. */
    method Resume(tasks: seq<TaskRecord>, serial: nat, ghost before: State, ghost now: Time)
      requires store.Valid() && metrics.Valid() && stopping.None? && started
      requires before.phase == Idle && before.supply == serial
        && Numbered(before.table, before.runners, before.background, serial)
      requires Listing(tasks, MarkRecovering(before.table, now), IdsIn(before.table, RECOVERABLE_STATES, None))
      requires View() == before.(table := TaskTable.MarkRecovering(before.table, now), phase := Serving,
                                 deferred := Deferred(before, TaskTable.MarkRecovering(before.table, now)), supply :=
                                   serial + 1)
      modifies this`runners, this`background
      ensures Valid() && View() == Protocol.Start(before, now)
    {
      ScheduleAll(tasks, serial, before, now);
      Recovered(before, now, store.rows, runners, background);
    }

    method Recover(now: Time)
      requires Valid() && !started
      modifies this`runners, this`background, this`started, this`supply, this`deferred, store
      ensures Valid() && View() == Protocol.Start(old(View()), now)
    {
      ghost var before := View();
      var serial := supply;
      started, supply := true, supply + 1;
      var tasks := store.MarkRecovering(now);
      deferred := Deferred(before, store.rows);
      Resume(tasks, serial, before, now);
    }

    method Start(now: Time)
      requires Valid()
      modifies this`runners, this`background, this`started, this`supply, this`deferred, store
      ensures Valid() && View() == Protocol.Start(old(View()), now)
    {
      if started {
        return;
      }
      Recover(now);
    }

    /** The cancel loop of `stop`; returns the coroutines to wait for. */
    method CancelBackground() returns (waiting: set<Handle>)
      modifies this`runners
      ensures waiting == BackgroundHandles(old(View()))
      ensures runners == Flagged(old(runners), waiting)
    {
      var left := background.Keys;
      waiting := {};
      while left != {}
        invariant left <= background.Keys
        invariant forall h :: h in waiting <==> exists id :: id in background && id !in left && background[id] == h
        invariant runners.Keys == old(runners).Keys
        invariant forall h :: h in runners ==>
          runners[h] == if h in waiting then old(runners)[h].(cancelRequested := true) else old(runners)[h]
        decreases |left|
      {
        var id :| id in left;
        var h := background[id];
        if h in runners {
          runners := runners[h := runners[h].(cancelRequested := true)];
        }
        waiting := waiting + {h};
        left := left - {id};
      }
    }

    /** `stop` after its gather returned: what it waited for is finished. */
    method StopEnd()
      requires Valid() && stopping.Some? && stopping.value !! runners.Keys
      modifies this`background, this`started, this`stopping
      ensures Valid() && View() == Protocol.StopEnd(old(View()))
    {
      background := map[];
      started, stopping := false, None;
    }

    /** `stop` up to its gather. */
    method StopBegin()
      requires Valid() && stopping.None? && (started || background == map[])
      modifies this`runners, this`background, this`started, this`stopping
      ensures Valid() && View() == Protocol.StopBegin(old(View()))
    {
      var waiting := CancelBackground();
      if waiting == {} {
        background := map[];
        started := false;
      } else {
        stopping := Some(waiting);
      }
    }

    // ----- Reload -----

    method Reload(config: Config)
      requires Valid()
      modifies this`config
      ensures Valid() && View() == Protocol.Reload(old(View()), config)
    {
      this.config := config;
    }

    /**
     The manager's part in a reload that names another store: refused while a coroutine is live, else this manager is
     stopped.
     */
    method SwitchStore() returns (accepted: bool)
      requires Valid() && started && stopping.None?
      modifies this`background, this`started
      ensures Valid() && View() == Protocol.SwitchStore(old(View()))
      ensures accepted <==> ActiveIds(old(View())) == {}
    {
      var active := ActiveCount();
      if active > 0 {
        return false;
      }
      background := map[];
      started := false;
      accepted := true;
    }

    // ----- The coroutine -----

    method Finish(h: Handle)
      requires Valid()
      modifies this`runners, this`background
      ensures Valid() && View() == Protocol.Finish(old(View()), h)
    {
      runners := runners - {h};
      background := background - {h.taskId};
    }

    method FailAndFinish(h: Handle, failure: Failure, now: Time)
      requires Valid()
      modifies this`runners, this`background, store, metrics`tasksCompleted
      ensures Valid() && View() == Protocol.Finish(HandleFailure(old(View()), h.taskId, failure, now), h)
    {
      SettleAs(h.taskId, FailureTarget(failure), Some(FailureMessage(failure)), None, now);
      Finish(h);
    }

    method TakeAttempt(h: Handle, snapshot: TaskRecord, now: Time)
      requires Valid() && h in runners && snapshot.taskId in store.rows
      modifies this`runners, this`background, this`supply, store, metrics`tasksCompleted
      ensures Valid() && View() == Protocol.TakeAttempt(old(View()), h, snapshot, now)
    {
      var task := snapshot;
      var recoveryAttempt := task.state == Recovering;
      if task.state == Recovering {
        task := task.Transition(Pending, now, None, None).value;
      }
      if task.state == Pending {
        task := task.NextAttempt(supply, now).Transition(Running, now, None, None).value;
        var written := store.Upsert(task);
        if !written {
          FailAndFinish(h, UNIQUE_FAILURE, now);
          return;
        }
        supply := supply + 1;
      }
      runners := runners[h := runners[h].(pc := Calling(task, recoveryAttempt, false))];
    }

    method Body(h: Handle, snapshot: TaskRecord, front: Frontmatter, now: Time)
      requires Valid() && h in runners && snapshot.taskId in store.rows
      modifies this`runners, this`background, this`supply, store, metrics`tasksCompleted
      ensures Valid() && View() == Protocol.Body(old(View()), h, snapshot, front, now)
    {
      var task := snapshot;
      if task.workingDirectory.None? {
        if task.workerId !in config.workers {
          FailAndFinish(h, Raised("'unknown worker_id: " + task.workerId + "'", "KeyError"), now);
          return;
        }
        var resolved := ResolveDirectory(front, config.workers[task.workerId].writePaths);
        if resolved.Err? {
          FailAndFinish(h, DirectoryFailure(resolved.error), now);
          return;
        }
        task := task.(workingDirectory := Some(resolved.value));
        var written := store.Upsert(task);
        if !written {
          FailAndFinish(h, UNIQUE_FAILURE, now);
          return;
        }
      }
      TakeAttempt(h, task, now);
    }

    method First(h: Handle, front: Frontmatter, now: Time)
      requires Valid() && h in runners && runners[h].pc.NotStarted?
      modifies this`runners, this`background, this`supply, store, metrics`tasksCompleted
      ensures Valid() && View() == Protocol.First(old(View()), h, front, now)
    {
      if runners[h].cancelRequested {
        Finish(h);
        return;
      }
      var task := store.Get(h.taskId);
      if task.None? || task.value.state in TERMINAL_STATES {
        Finish(h);
      } else if config.recovery.delaySeconds != 0.0 && task.value.state == Recovering {
        runners := runners[h := runners[h].(pc := Sleeping(task.value))];
      } else {
        Body(h, task.value, front, now);
      }
    }

    method Wake(h: Handle, front: Frontmatter, now: Time)
      requires Valid() && h in runners && runners[h].pc.Sleeping? && !runners[h].cancelRequested
      requires runners[h].pc.snapshot.taskId in store.rows
      modifies this`runners, this`background, this`supply, store, metrics`tasksCompleted
      ensures Valid() && View() == Protocol.Body(old(View()), h, old(runners)[h].pc.snapshot, front, now)
    {
      Body(h, runners[h].pc.snapshot, front, now);
    }

    method Send(h: Handle)
      requires Valid() && Enabled(View(), SendStep(h))
      modifies this`runners, this`log
      ensures Valid() && View() == Protocol.Send(old(View()), h)
    {
      var pc := runners[h].pc;
      log := log + [DispatchOf(pc.task, pc.recoveryAttempt)];
      runners := runners[h := runners[h].(pc := pc.(sent := true))];
    }

    method Complete(h: Handle, result: Payload, now: Time)
      requires Valid()
      modifies this`runners, this`background, store, metrics`tasksCompleted
      ensures Valid() && View() == Protocol.Receive(old(View()), h, Returned(result), now)
    {
      var latest := store.Get(h.taskId);
      if latest.Some? && latest.value.state !in TERMINAL_STATES {
        var completed := latest.value.Transition(Completed, now, None, Some(result));
        if completed.Err? {
          FailAndFinish(h, Raised(completed.error.Message(), "InvalidTransition"), now);
          return;
        }
        SettlesOpen(View(), h.taskId, Completed, None, Some(result), now);
        Settle(completed.value);
      }
      Finish(h);
    }

    method Receive(h: Handle, reply: Reply, now: Time)
      requires Valid() && Enabled(View(), ReceiveStep(h, reply, now))
      modifies this`runners, this`background, store, metrics`tasksCompleted
      ensures Valid() && View() == Protocol.Receive(old(View()), h, reply, now)
    {
      match reply
      case Threw(failure) => FailAndFinish(h, failure, now);
      case Returned(result) => Complete(h, result, now);
    }

    method Interrupt(h: Handle, now: Time)
      requires Valid() && Enabled(View(), InterruptStep(h, now))
      modifies this`runners, this`background, store, metrics`tasksCompleted
      ensures Valid() && View() == Protocol.Interrupt(old(View()), h, now)
    {
      SettleAs(h.taskId, Cancelled, Some(BACKGROUND_CANCELLED), None, now);
      Finish(h);
    }
  }
}
