/**
 Paths from a state that a submission leads to: consecutive steps, given explicitly, that end where a
 guarantee about the submitted task fails. Which submissions lead there is the subject of `Converses`.
 */
module Paths {
  import opened Wrappers
  import opened TaskStates
  import opened TaskTable
  import opened PathPolicy
  import opened Protocol
  import opened Invariant
  import opened TaskLife
  import opened Theorems
  import opened Dispatches
  import opened Accounting

  // ----- Paths -----

  /** Consecutive steps from a state, with the states they lead through. */
  ghost predicate PathFrom(s: State, p: Run) {
    match p
    case Run(states, labels) => |states| == |labels| + 1 && states[0] == s && forall i :: 0 <= i < |labels| ==>
      StepAt(p, i)
  }

  ghost predicate NoReload(labels: seq<Label>) {
    forall i :: 0 <= i < |labels| ==> !labels[i].ReloadStep?
  }

  function Last(run: Run): State
    requires run.states != []
  {
    run.states[|run.states| - 1]
  }

  lemma Take(s: State, l: Label) returns (p: Run)
    requires Sane(s) && Enabled(s, l)
    ensures PathFrom(s, p) && p.labels == [l] && Last(p) == Next(s, l) && Sane(Last(p))
      && (l.ReloadStep? || NoReload(p.labels))
  {
    StepSane(s, l);
    p := Run([s, Next(s, l)], [l]);
  }

  /** The second path is the first from its k-th state on. */
  ghost predicate Embeds(all: Run, k: nat, p: Run) {
    match p
    case Run(states, labels) =>
      && |all.states| == |all.labels| + 1 && |states| == |labels| + 1 && |all.labels| == k + |labels|
      && all.states[k..] == states && all.labels[k..] == labels
  }

  lemma Join(s: State, p: Run, q: Run) returns (all: Run)
    requires PathFrom(s, p) && PathFrom(Last(p), q)
    ensures PathFrom(s, all) && all.labels == p.labels + q.labels && all.states == p.states[..|p.labels|] + q.states
    ensures Last(all) == Last(q) && Embeds(all, |p.labels|, q)
    ensures NoReload(p.labels) && NoReload(q.labels) ==> NoReload(all.labels)
  {
    all := Run(p.states[..|p.labels|] + q.states, p.labels + q.labels);
    forall i | 0 <= i < |all.labels| ensures StepAt(all, i) {
      if i < |p.labels| {
        assert StepAt(p, i);
      } else {
        assert StepAt(q, i - |p.labels|);
      }
    }
  }

  // ----- Single steps, with the state each leads to -----

  lemma FirstIsTaken(s: State, h: Handle)
    requires TableOk(s.table, s.supply) && h in s.runners && s.runners[h] == Runner(NotStarted, false)
    requires h.taskId in s.table && s.table[h.taskId].state == Pending
    ensures First(s, h, Absent, 0) == Taken(s, h, s.table[h.taskId], 0)
  {
    assert RecordOk(h.taskId, s.table[h.taskId], s.supply);
    FirstIsOneOf(s, h, Absent, 0);
    TakeAttemptIs(s, h, s.table[h.taskId], 0);
  }

  /** A coroutine that has not begun takes its attempt. */
  lemma FirstTakes(s: State, h: Handle) returns (p: Run)
    requires Sane(s) && h in s.runners && s.runners[h] == Runner(NotStarted, false) && h.taskId in s.table
      && s.table[h.taskId].state == Pending
    ensures PathFrom(s, p) && Sane(Last(p)) && NoReload(p.labels) && p.labels == [FirstStep(h, Absent, 0)]
      && Last(p) == Taken(s, h, s.table[h.taskId], 0)
  {
    FirstIsTaken(s, h);
    p := Take(s, FirstStep(h, Absent, 0));
  }

  lemma FirstIsFollowing(s: State, g: Handle)
    requires TableOk(s.table, s.supply) && g in s.runners && s.runners[g] == Runner(NotStarted, false)
    requires g.taskId in s.table && s.table[g.taskId].state == Running
    ensures First(s, g, Absent, 0) == SetPc(s, g, Calling(s.table[g.taskId], false, false))
  {
    assert RecordOk(g.taskId, s.table[g.taskId], s.supply);
    FirstIsOneOf(s, g, Absent, 0);
  }

  /** One that finds its task Running enters the call on that attempt. */
  lemma FirstFollows(s: State, g: Handle) returns (p: Run)
    requires Sane(s) && g in s.runners && s.runners[g] == Runner(NotStarted, false) && g.taskId in s.table
      && s.table[g.taskId].state == Running
    ensures PathFrom(s, p) && Sane(Last(p)) && NoReload(p.labels) && p.labels == [FirstStep(g, Absent, 0)]
    ensures Last(p) == SetPc(s, g, Calling(s.table[g.taskId], false, false))
  {
    FirstIsFollowing(s, g);
    p := Take(s, FirstStep(g, Absent, 0));
  }

  lemma FirstIsSleeping(s: State, g: Handle)
    requires TableOk(s.table, s.supply) && g in s.runners && s.runners[g] == Runner(NotStarted, false)
    requires g.taskId in s.table && s.table[g.taskId].state == Recovering && s.config.recovery.delaySeconds != 0.0
    ensures First(s, g, Absent, 0) == SetPc(s, g, Sleeping(s.table[g.taskId]))
  {
    assert RecordOk(g.taskId, s.table[g.taskId], s.supply);
    FirstIsOneOf(s, g, Absent, 0);
  }

  /** One that finds its task Recovering, under a recovery delay, sleeps. */
  lemma FirstSleeps(s: State, g: Handle) returns (p: Run)
    requires Sane(s) && g in s.runners && s.runners[g] == Runner(NotStarted, false) && g.taskId in s.table
      && s.table[g.taskId].state == Recovering
    requires s.config.recovery.delaySeconds != 0.0
    ensures PathFrom(s, p) && Sane(Last(p)) && NoReload(p.labels) && p.labels == [FirstStep(g, Absent, 0)]
      && Last(p) == SetPc(s, g, Sleeping(s.table[g.taskId]))
  {
    FirstIsSleeping(s, g);
    p := Take(s, FirstStep(g, Absent, 0));
  }

  lemma Starts(s: State) returns (p: Run)
    requires Sane(s) && s.phase == Idle
    ensures PathFrom(s, p) && Sane(Last(p)) && NoReload(p.labels) && p.labels == [StartStep(0)]
    ensures Last(p).table.Keys == s.table.Keys && forall id :: id in s.table ==>
      Last(p).table[id] == Marked(s.table[id], 0)
    ensures Joined(s.runners, Last(p).runners, ToSchedule(s, MarkRecovering(s.table, 0)), s.supply)
      && Last(p).config == s.config
    ensures Last(p).phase == Serving
  {
    StartShape(s, 0);
    p := Take(s, StartStep(0));
  }

  lemma SendsTo(s: State, h: Handle) returns (p: Run)
    requires Sane(s) && h in s.runners && s.runners[h].pc.Calling? && !s.runners[h].pc.sent
      && !s.runners[h].cancelRequested
    ensures PathFrom(s, p) && Sane(Last(p)) && NoReload(p.labels) && p.labels == [SendStep(h)] && Last(p) == Send(s, h)
  {
    p := Take(s, SendStep(h));
  }

  // ----- A new task, not yet begun -----

  /** The task is Pending, and its one coroutine has not begun and has not been told to cancel. */
  ghost predicate Newborn(s: State, id: TaskId) {
    match s
    case State(table, runners, _, _, _, _, _, _, _, _) =>
      && id in table && table[id].state == Pending
      && Handle(id, id) in runners && runners[Handle(id, id)] == Runner(NotStarted, false)
      && forall g :: g in runners && g.taskId == id ==> g == Handle(id, id)
  }

  lemma CreatedNewborn(s: State, r: Request)
    requires Sane(s) && Creates(s, r)
    ensures Newborn(Submit(s, r), s.supply)
    ensures s.phase.Stopping? ==> Handle(s.supply, s.supply) !in s.phase.waiting
    ensures Submit(s, r).phase == s.phase && Submit(s, r).config == s.config
  {
    CreateIs(s, r);
    assert forall g :: g in s.runners ==> g.taskId in s.table;
  }

  lemma SubmitPath(s: State, r: Request) returns (p: Run)
    requires Sane(s) && Creates(s, r)
    ensures PathFrom(s, p) && Sane(Last(p)) && NoReload(p.labels) && p.labels == [SubmitStep(r)]
      && Newborn(Last(p), s.supply)
    ensures Last(p).phase == s.phase && (s.phase.Stopping? ==> Handle(s.supply, s.supply) !in s.phase.waiting)
  {
    CreatedNewborn(s, r);
    p := Take(s, SubmitStep(r));
  }

  /** An awaited coroutine can end in one step: it has been told to cancel. */
  function EndLabel(s: State, g: Handle): Label
    requires g in s.runners
  {
    if s.runners[g].pc.NotStarted? then FirstStep(g, Absent, 0) else InterruptStep(g, 0)
  }

  lemma DrainedKeys(s: State, g: Handle)
    requires g in s.runners && s.runners[g].cancelRequested
    ensures Next(s, EndLabel(s, g)).runners == s.runners - {g}
  {
  }

  lemma Drained(s: State, g: Handle) returns (p: Run)
    requires Sane(s) && g in s.runners && s.runners[g].cancelRequested
    ensures PathFrom(s, p) && Sane(Last(p)) && p.labels == [EndLabel(s, g)] && !EndLabel(s, g).ReloadStep?
    ensures Within(s, Last(p), g.taskId) && Last(p).runners == s.runners - {g}
  {
    OwnStepSane(s, EndLabel(s, g));
    DrainedKeys(s, g);
    p := Take(s, EndLabel(s, g));
  }

  lemma StillNewborn(s: State, s': State, g: Handle, id: TaskId)
    requires Newborn(s, id) && Within(s, s', g.taskId) && s'.runners == s.runners - {g} && g in s.runners
      && g != Handle(id, id)
    ensures Newborn(s', id)
  {
  }

  lemma FewerRunners(runners: map<Handle, Runner>, g: Handle)
    requires g in runners
    ensures |runners - {g}| < |runners|
  {
    assert (runners - {g}).Keys == runners.Keys - {g};
    assert |runners - {g}| == |(runners - {g}).Keys| && |runners| == |runners.Keys|;
  }

  lemma DrainOne(s: State, g: Handle, id: TaskId) returns (p: Run)
    requires Sane(s) && Newborn(s, id) && s.phase.Stopping? && g in s.phase.waiting && g in s.runners
      && Handle(id, id) !in s.phase.waiting
    ensures PathFrom(s, p) && Sane(Last(p)) && NoReload(p.labels)
    ensures Newborn(Last(p), id) && Last(p).phase == s.phase && |Last(p).runners| < |s.runners|
  {
    p := Drained(s, g);
    FewerRunners(s.runners, g);
    StillNewborn(s, Last(p), g, id);
  }

  /** Everything a stop waits for can end without touching the newcomer. */
  lemma {:induction false} Drain(s: State, id: TaskId) returns (p: Run)
    requires Sane(s) && Newborn(s, id) && s.phase.Stopping? && Handle(id, id) !in s.phase.waiting
    ensures PathFrom(s, p) && Sane(Last(p)) && NoReload(p.labels)
    ensures Newborn(Last(p), id) && Last(p).phase == s.phase && s.phase.waiting !! Last(p).runners.Keys
    decreases |s.runners|
  {
    if g :| g in s.phase.waiting && g in s.runners {
      p := DrainOne(s, g, id);
      var q := Drain(Last(p), id);
      p := Join(s, p, q);
    } else {
      p := Run([s], []);
    }
  }

  /** Coroutines end, each before it has begun or interrupted where it is: no reply, and nothing else. */
  ghost predicate OnlyEndings(labels: seq<Label>) {
    forall i :: 0 <= i < |labels| ==> labels[i].FirstStep? || labels[i].InterruptStep?
  }

  lemma DrainedPhase(s: State, g: Handle) returns (p: Run)
    requires Sane(s) && g in s.runners && s.runners[g].cancelRequested
    ensures PathFrom(s, p) && Sane(Last(p)) && OnlyEndings(p.labels)
    ensures Last(p).phase == s.phase && |Last(p).runners| < |s.runners|
  {
    p := Drained(s, g);
    FewerRunners(s.runners, g);
  }

  lemma JoinEndings(s: State, p: Run, q: Run) returns (all: Run)
    requires PathFrom(s, p) && PathFrom(Last(p), q) && OnlyEndings(p.labels) && OnlyEndings(q.labels)
    ensures PathFrom(s, all) && Last(all) == Last(q) && OnlyEndings(all.labels)
  {
    all := Join(s, p, q);
  }

  /** Everything a stop waits for can end at once, whatever the workers do. */
  lemma {:induction false} DrainAll(s: State) returns (p: Run)
    requires Sane(s) && s.phase.Stopping?
    ensures PathFrom(s, p) && Sane(Last(p)) && OnlyEndings(p.labels)
    ensures Last(p).phase == s.phase && s.phase.waiting !! Last(p).runners.Keys
    decreases |s.runners|
  {
    if g :| g in s.phase.waiting && g in s.runners {
      p := DrainedPhase(s, g);
      var q := DrainAll(Last(p));
      p := JoinEndings(s, p, q);
    } else {
      p := Run([s], []);
    }
  }

  /** The stop ends, and the newcomer's coroutine is no longer registered. */
  lemma Forgotten(s: State, id: TaskId) returns (p: Run)
    requires Sane(s) && Newborn(s, id) && Enabled(s, StopEndStep)
    ensures PathFrom(s, p) && Sane(Last(p)) && NoReload(p.labels)
    ensures Newborn(Last(p), id) && Last(p).phase == Idle && Last(p).background == map[] && p.labels == [StopEndStep]
  {
    p := Take(s, StopEndStep);
  }

  /** Its last step is the one in which `stop` returns. */
  ghost predicate EndsStop(p: Run) {
    match p
    case Run(states, labels) =>
      && labels != [] && |states| == |labels| + 1 && labels[|labels| - 1] == StopEndStep
      && states[|labels| - 1].phase.Stopping? && states[|labels|].phase == Idle
  }

  lemma JoinedEndsStop(p: Run, q: Run, all: Run)
    requires p.states != [] && Last(p).phase.Stopping? && PathFrom(Last(p), q) && q.labels == [StopEndStep]
      && Last(q).phase == Idle
    requires Embeds(all, |p.labels|, q)
    ensures EndsStop(all)
  {
    assert all.labels[|p.labels|] == all.labels[|p.labels|..][0];
    assert all.states[|p.labels|] == all.states[|p.labels|..][0]
      && all.states[|p.labels| + 1] == all.states[|p.labels|..][1];
  }

  /** From a late submission, through everything the stop waits for, to its end: the newcomer is alive and forgotten. */
  lemma LateToIdle(s: State, r: Request) returns (p: Run)
    requires Sane(s) && s.phase.Stopping? && Creates(s, r)
    ensures PathFrom(s, p) && Sane(Last(p)) && p.labels != [] && p.labels[0] == SubmitStep(r) && NoReload(p.labels)
    ensures Newborn(Last(p), s.supply) && Last(p).phase == Idle && Last(p).background == map[] && EndsStop(p)
  {
    p := SubmitPath(s, r);
    var q := Drain(Last(p), s.supply);
    p := Join(s, p, q);
    q := Forgotten(Last(p), s.supply);
    var all := Join(s, p, q);
    JoinedEndsStop(p, q, all);
    p := all;
  }

  /** Outside serving, a submission leads to an idle manager with the new task not yet begun. */
  lemma ToIdle(s: State, r: Request) returns (p: Run)
    requires Sane(s) && Creates(s, r) && s.phase != Serving
    ensures PathFrom(s, p) && Sane(Last(p)) && p.labels != [] && p.labels[0] == SubmitStep(r) && NoReload(p.labels)
    ensures Newborn(Last(p), s.supply) && Last(p).phase == Idle
    ensures s.phase.Stopping? ==> Last(p).background == map[] && EndsStop(p)
  {
    if s.phase.Stopping? {
      p := LateToIdle(s, r);
    } else {
      p := SubmitPath(s, r);
    }
  }

  // ----- First steps of a newcomer -----

  /** The newcomer has taken an attempt and is in the worker call; its record is in the given state. */
  ghost predicate AtWork(s: State, id: TaskId, sent: bool, state: TaskState) {
    match s
    case State(table, runners, _, _, _, _, _, _, _, _) =>
      && id in table && table[id].state == state && Handle(id, id) in runners
      && var runner := runners[Handle(id, id)];
         runner.pc.Calling? && runner.pc.sent == sent && !runner.cancelRequested && runner.pc.task.taskId == id
  }

  lemma TakenAtWork(s: State, id: TaskId)
    requires Sane(s) && id in s.table && s.table[id].state == Pending && Handle(id, id) in s.runners
      && !s.runners[Handle(id, id)].cancelRequested
    ensures AtWork(Taken(s, Handle(id, id), s.table[id], 0), id, false, Running)
  {
    OwnRecords(s, id);
    AttemptedOk(id, s.table[id], s.supply, 0);
  }

  lemma TakenKeepsRest(s: State, h: Handle)
    requires h in s.runners && h.taskId in s.table && s.table[h.taskId].state == Pending
    ensures var s' := Taken(s, h, s.table[h.taskId], 0);
      s'.phase == s.phase && s'.background == s.background && s'.config == s.config && s'.table.Keys == s.table.Keys
  {
  }

  lemma Begins(s: State, id: TaskId) returns (p: Run)
    requires Sane(s) && Newborn(s, id)
    ensures PathFrom(s, p) && Sane(Last(p)) && |p.labels| == 1 && NoReload(p.labels)
      && AtWork(Last(p), id, false, Running)
    ensures Last(p).phase == s.phase && Last(p).background == s.background && Last(p).config == s.config
      && Last(p).table.Keys == s.table.Keys
  {
    TakenAtWork(s, id);
    TakenKeepsRest(s, Handle(id, id));
    p := FirstTakes(s, Handle(id, id));
  }

  lemma StartPath(s: State) returns (p: Run)
    requires Sane(s)
    ensures PathFrom(s, p) && Sane(Last(p)) && NoReload(p.labels) && p.labels == [StartStep(0)]
      && Last(p) == Start(s, 0)
  {
    p := Take(s, StartStep(0));
  }

  lemma StartedAtWork(s: State, id: TaskId)
    requires Sane(s) && AtWork(s, id, false, Running) && s.phase == Idle
    ensures AtWork(Start(s, 0), id, false, Recovering) && Start(s, 0).phase == Serving
  {
    StartShape(s, 0);
    OwnRecords(s, id);
    MarkedOk(id, s.table[id], 0, s.supply);
  }

  /** A start makes the record Recovering under the coroutine in the worker call. */
  lemma Overtaken(s: State, id: TaskId) returns (p: Run)
    requires Sane(s) && AtWork(s, id, false, Running) && s.phase == Idle
    ensures PathFrom(s, p) && Sane(Last(p)) && |p.labels| == 1 && NoReload(p.labels)
      && AtWork(Last(p), id, false, Recovering)
  {
    StartedAtWork(s, id);
    p := StartPath(s);
  }

  // ----- A refused reply -----

  /** The reply of step n, for this task, is refused: the task was open and is not Completed. */
  ghost predicate RefusesReply(p: Run, n: nat, id: TaskId) {
    match p
    case Run(states, labels) =>
      && n < |labels| && |states| == |labels| + 1
      && labels[n].ReceiveStep? && labels[n].reply.Returned? && labels[n].h.taskId == id
      && Open(states[n], id) && id in states[n + 1].table && states[n + 1].table[id].state != Completed
  }

  lemma RefusedLater(p: Run, n: nat, id: TaskId, all: Run, k: nat)
    requires RefusesReply(p, n, id) && Embeds(all, k, p)
    ensures RefusesReply(all, k + n, id)
  {
    assert all.labels[k + n] == all.labels[k..][n] && all.states[k + n] == all.states[k..][n]
      && all.states[k + n + 1] == all.states[k..][n + 1];
  }

  lemma SendPath(s: State, id: TaskId) returns (p: Run)
    requires Sane(s) && AtWork(s, id, false, Recovering)
    ensures PathFrom(s, p) && Sane(Last(p)) && |p.labels| == 1 && NoReload(p.labels)
      && AtWork(Last(p), id, true, Recovering)
  {
    p := SendsTo(s, Handle(id, id));
  }

  lemma NotCompleted(s: State, h: Handle)
    requires h in s.runners && h.taskId in s.table && s.table[h.taskId].taskId == h.taskId
      && s.table[h.taskId].state == Recovering
    ensures var s' := Receive(s, h, Returned(""), 0); h.taskId in s'.table && s'.table[h.taskId].state != Completed
  {
    ReceiveIs(s, h, Returned(""), 0);
    var failure := ReplyFailure(s.table[h.taskId], Returned("")).value;
    SettleFinishIs(s, h, FailureTarget(failure), Some(FailureMessage(failure)), None, 0);
    OutcomeAdvances(s.table[h.taskId], FailureTarget(failure), Some(FailureMessage(failure)), None, 0);
  }

  lemma ReplyPath(s: State, h: Handle) returns (p: Run)
    requires Sane(s) && h in s.runners && s.runners[h].pc.Calling? && s.runners[h].pc.sent
      && !s.runners[h].cancelRequested
    ensures PathFrom(s, p) && Sane(Last(p)) && NoReload(p.labels) && p.labels == [ReceiveStep(h, Returned(""), 0)]
      && Last(p) == Receive(s, h, Returned(""), 0)
  {
    p := Take(s, ReceiveStep(h, Returned(""), 0));
  }

  lemma RefusedAtOnce(s: State, h: Handle, p: Run)
    requires PathFrom(s, p) && p.labels == [ReceiveStep(h, Returned(""), 0)] && Open(s, h.taskId)
    requires h.taskId in Last(p).table && Last(p).table[h.taskId].state != Completed
    ensures RefusesReply(p, 0, h.taskId)
  {
  }

  lemma RecoveringReply(s: State, id: TaskId)
    requires Sane(s) && AtWork(s, id, true, Recovering)
    ensures var h, s' := Handle(id, id), Receive(s, Handle(id, id), Returned(""), 0);
      && Open(s, id) && h in s.runners && s.runners[h].pc.Calling? && s.runners[h].pc.sent
        && !s.runners[h].cancelRequested
      && id in s'.table && s'.table[id].state != Completed
  {
    assert RecordOk(id, s.table[id], s.supply);
    NotCompleted(s, Handle(id, id));
  }

  lemma ReplyRefused(s: State, id: TaskId) returns (p: Run)
    requires Sane(s) && AtWork(s, id, true, Recovering)
    ensures PathFrom(s, p) && Sane(Last(p)) && NoReload(p.labels) && RefusesReply(p, 0, id)
  {
    RecoveringReply(s, id);
    p := ReplyPath(s, Handle(id, id));
    RefusedAtOnce(s, Handle(id, id), p);
  }

  lemma RefusedReplyPath(s: State, id: TaskId) returns (p: Run)
    requires Sane(s) && Newborn(s, id) && s.phase == Idle
    ensures PathFrom(s, p) && Sane(Last(p)) && NoReload(p.labels) && RefusesReply(p, 3, id)
  {
    p := Begins(s, id);
    var q := Overtaken(Last(p), id);
    p := Join(s, p, q);
    q := SendPath(Last(p), id);
    p := Join(s, p, q);
    q := ReplyRefused(Last(p), id);
    var all := Join(s, p, q);
    RefusedLater(q, 0, id, all, 3);
    p := all;
  }

  // ----- A cancel that nobody hears -----

  /** Step n is the caller's cancel of the open task, and in a later step m a request for it leaves. */
  ghost predicate SendsAfterCancel(p: Run, n: nat, m: nat, id: TaskId) {
    match p
    case Run(states, labels) =>
      && n < m < |labels| && |states| == |labels| + 1
      && labels[n].CancelStep? && labels[n].taskId == id && Open(states[n], id)
      && labels[m].SendStep? && labels[m].h.taskId == id
  }

  lemma SentAfterLater(p: Run, n: nat, m: nat, id: TaskId, all: Run, k: nat)
    requires SendsAfterCancel(p, n, m, id) && Embeds(all, k, p)
    ensures SendsAfterCancel(all, k + n, k + m, id)
  {
    assert all.labels[k + n] == all.labels[k..][n] && all.states[k + n] == all.states[k..][n]
      && all.labels[k + m] == all.labels[k..][m];
  }

  lemma CancelUnheard(s: State, id: TaskId)
    requires Sane(s) && AtWork(s, id, false, Running) && id !in s.background
    ensures Open(s, id) && Cancel(s, id, 0).runners == s.runners
  {
    assert RecordOk(id, s.table[id], s.supply);
    CancelIs(s, id, 0);
  }

  /** A coroutine at work that is not registered goes on after its task was cancelled, and sends. */
  lemma UnheardCancel(s: State, id: TaskId) returns (p: Run)
    requires Sane(s) && AtWork(s, id, false, Running) && id !in s.background
    ensures PathFrom(s, p) && Sane(Last(p)) && NoReload(p.labels) && SendsAfterCancel(p, 0, 1, id)
  {
    CancelUnheard(s, id);
    p := Take(s, CancelStep(id, 0));
    var q := SendsTo(Last(p), Handle(id, id));
    p := Join(s, p, q);
  }

  lemma UnheardCancelPath(s: State, id: TaskId) returns (p: Run)
    requires Sane(s) && Newborn(s, id) && s.background == map[]
    ensures PathFrom(s, p) && Sane(Last(p)) && NoReload(p.labels) && SendsAfterCancel(p, 1, 2, id)
  {
    p := Begins(s, id);
    var q := UnheardCancel(Last(p), id);
    var all := Join(s, p, q);
    SentAfterLater(q, 0, 1, id, all, 1);
    p := all;
  }

  // ----- Two sends -----

  /** Two coroutines of the task that have not begun. */
  ghost predicate Twins(s: State, id: TaskId, g: Handle) {
    match s
    case State(table, runners, _, _, _, _, _, _, _, _) =>
      && id in table && table[id].state == Pending && g.taskId == id && g != Handle(id, id)
      && g in runners && Handle(id, id) in runners && runners[g] == runners[Handle(id, id)] == Runner(NotStarted, false)
  }

  lemma TwinsJoined(s: State, s': State, ids: set<TaskId>, id: TaskId)
    requires Newborn(s, id) && Joined(s.runners, s'.runners, ids, s.supply) && id in ids
    requires id in s'.table && s'.table[id] == Marked(s.table[id], 0)
    ensures Twins(s', id, Handle(id, s.supply))
  {
  }

  lemma TwinStarts(s: State, id: TaskId) returns (p: Run)
    requires Sane(s) && Newborn(s, id) && s.phase == Idle && s.background == map[]
    ensures PathFrom(s, p) && Sane(Last(p)) && NoReload(p.labels) && Twins(Last(p), id, Handle(id, s.supply))
  {
    PendingScheduled(s, id, 0);
    p := Starts(s);
    TwinsJoined(s, Last(p), ToSchedule(s, MarkRecovering(s.table, 0)), id);
  }

  /** The coroutine is in the worker call with a request to send. */
  ghost predicate AboutToSend(s: State, g: Handle, id: TaskId) {
    match s
    case State(_, runners, _, _, _, _, _, _, _, _) =>
      g in runners && runners[g].pc.Calling? && !runners[g].pc.sent && !runners[g].cancelRequested
        && runners[g].pc.task.taskId == id
  }

  lemma TakenKeepsTwin(s: State, id: TaskId, g: Handle)
    requires Twins(s, id, g)
    ensures var s' := Taken(s, Handle(id, id), s.table[id], 0); g in s'.runners && s'.runners[g] == Runner(NotStarted, false)
  {
  }

  /** The first twin takes the attempt; the second will find it Running. */
  lemma FirstTwinEnters(s: State, id: TaskId, g: Handle) returns (p: Run)
    requires Sane(s) && Twins(s, id, g)
    ensures PathFrom(s, p) && Sane(Last(p)) && NoReload(p.labels) && AtWork(Last(p), id, false, Running)
    ensures g in Last(p).runners && Last(p).runners[g] == Runner(NotStarted, false)
  {
    TakenAtWork(s, id);
    TakenKeepsTwin(s, id, g);
    p := FirstTakes(s, Handle(id, id));
  }

  lemma FollowersSend(s: State, g: Handle, id: TaskId)
    requires Sane(s) && AtWork(s, id, false, Running) && g in s.runners && s.runners[g] == Runner(NotStarted, false)
      && g.taskId == id
    ensures var s' := SetPc(s, g, Calling(s.table[id], false, false)); AboutToSend(s', g, id) && AboutToSend(s', Handle(id, id), id)
  {
    OwnRecords(s, id);
  }

  lemma SecondTwinEnters(s: State, id: TaskId, g: Handle) returns (p: Run)
    requires Sane(s) && AtWork(s, id, false, Running) && g in s.runners && s.runners[g] == Runner(NotStarted, false)
      && g.taskId == id
    ensures PathFrom(s, p) && Sane(Last(p)) && NoReload(p.labels) && AboutToSend(Last(p), g, id)
      && AboutToSend(Last(p), Handle(id, id), id)
  {
    FollowersSend(s, g, id);
    p := FirstFollows(s, g);
  }

  lemma OneMoreSend(log: seq<Dispatch>, d: Dispatch, id: TaskId)
    requires d.taskId == id
    ensures Sends(log + [d], id) == Sends(log, id) + 1
  {
    assert (log + [d])[..|log|] == log;
  }

  lemma SendCounts(s: State, h: Handle, id: TaskId)
    requires AboutToSend(s, h, id)
    ensures Sends(Send(s, h).log, id) == Sends(s.log, id) + 1
  {
    OneMoreSend(s.log, DispatchOf(s.runners[h].pc.task, s.runners[h].pc.recoveryAttempt), id);
  }

  lemma SendsOnce(s: State, id: TaskId, h: Handle) returns (p: Run)
    requires Sane(s) && AboutToSend(s, h, id)
    ensures PathFrom(s, p) && Sane(Last(p)) && NoReload(p.labels) && Sends(Last(p).log, id) == Sends(s.log, id) + 1
    ensures h in s.runners && s.runners[h].pc.Calling? && Last(p) == Send(s, h)
  {
    SendCounts(s, h, id);
    p := SendsTo(s, h);
  }

  lemma OtherStillSends(s: State, h: Handle, g: Handle, id: TaskId)
    requires AboutToSend(s, h, id) && AboutToSend(s, g, id) && g != h
    ensures AboutToSend(Send(s, h), g, id)
  {
  }

  lemma SentTwicePath(s: State, id: TaskId) returns (p: Run)
    requires Sane(s) && Newborn(s, id) && s.phase == Idle && s.background == map[]
    ensures PathFrom(s, p) && Sane(Last(p)) && NoReload(p.labels) && Sends(Last(p).log, id) >= 2
  {
    var g := Handle(id, s.supply);
    p := TwinStarts(s, id);
    var q := FirstTwinEnters(Last(p), id, g);
    p := Join(s, p, q);
    q := SecondTwinEnters(Last(p), id, g);
    p := Join(s, p, q);
    OtherStillSends(Last(p), Handle(id, id), g, id);
    q := SendsOnce(Last(p), id, Handle(id, id));
    p := Join(s, p, q);
    q := SendsOnce(Last(p), id, g);
    p := Join(s, p, q);
  }

  // ----- A swallowed failure -----

  lemma TimeoutSwallowed(s: State, h: Handle)
    requires h in s.runners && h.taskId in s.table && s.table[h.taskId].state == Recovering
    ensures Receive(s, h, Threw(Timeout("")), 0) == Finish(s, h)
  {
  }

  lemma TimeoutIgnored(s: State, h: Handle) returns (p: Run)
    requires Sane(s) && h in s.runners && s.runners[h].pc.Calling? && !s.runners[h].cancelRequested
    requires h.taskId in s.table && s.table[h.taskId].state == Recovering
    ensures PathFrom(s, p) && Sane(Last(p)) && NoReload(p.labels)
      && p.labels == [ReceiveStep(h, Threw(Timeout("")), 0)] && Last(p) == Finish(s, h)
  {
    TimeoutSwallowed(s, h);
    p := Take(s, ReceiveStep(h, Threw(Timeout("")), 0));
  }

  /** In step n the worker call of this task raises, its coroutine ends, and the task was open and stays so. */
  ghost predicate Swallows(p: Run, n: nat, id: TaskId) {
    match p
    case Run(states, labels) =>
      && n < |labels| && |states| == |labels| + 1
      && labels[n].ReceiveStep? && labels[n].reply.Threw? && labels[n].h.taskId == id
      && labels[n].h in states[n].runners && states[n].runners[labels[n].h].pc.Calling?
        && labels[n].h !in states[n + 1].runners
      && Open(states[n], id) && Open(states[n + 1], id)
  }

  lemma SwallowsLater(p: Run, n: nat, id: TaskId, all: Run, k: nat)
    requires Swallows(p, n, id) && Embeds(all, k, p)
    ensures Swallows(all, k + n, id)
  {
    assert all.labels[k + n] == all.labels[k..][n];
    assert all.states[k + n] == all.states[k..][n] && all.states[k + n + 1] == all.states[k..][n + 1];
  }

  lemma RecoveringIsOpen(s: State, id: TaskId)
    requires id in s.table && s.table[id].state == Recovering
    ensures Open(s, id)
  {
  }

  lemma SwallowedAtOnce(s: State, h: Handle, p: Run)
    requires PathFrom(s, p) && p.labels == [ReceiveStep(h, Threw(Timeout("")), 0)] && Last(p) == Finish(s, h)
    requires h in s.runners && s.runners[h].pc.Calling? && Open(s, h.taskId)
    ensures Swallows(p, 0, h.taskId)
  {
    assert p.states[1] == Finish(s, h);
  }

  /** The timeout of a call over a Recovering record: that state has no edge to TimedOut. */
  lemma TimeoutPath(s: State, id: TaskId) returns (p: Run)
    requires Sane(s) && AtWork(s, id, false, Recovering)
    ensures PathFrom(s, p) && Sane(Last(p)) && NoReload(p.labels) && Swallows(p, 0, id)
      && Last(p) == Finish(s, Handle(id, id))
  {
    RecoveringIsOpen(s, id);
    p := TimeoutIgnored(s, Handle(id, id));
    SwallowedAtOnce(s, Handle(id, id), p);
  }

  lemma SwallowedPath(s: State, id: TaskId) returns (p: Run)
    requires Sane(s) && Newborn(s, id) && s.phase == Idle
    ensures PathFrom(s, p) && Sane(Last(p)) && NoReload(p.labels) && Swallows(p, 2, id)
  {
    p := Begins(s, id);
    var q := Overtaken(Last(p), id);
    p := Join(s, p, q);
    q := TimeoutPath(Last(p), id);
    var all := Join(s, p, q);
    SwallowsLater(q, 0, id, all, 2);
    p := all;
  }

  // ----- A lost task -----

  /** The manager serves, the task is open, and it is neither registered nor deferred by the last start. */
  ghost predicate Lost(s: State, id: TaskId) {
    && s.phase == Serving && Open(s, id) && id !in ActiveIds(s)
    && !(s.table[id].state == Recovering && id in s.deferred)
  }

  /** The policy in force replays the task. */
  predicate Replayed(s: State, id: TaskId) {
    id in s.table && !RefusesReplay(s.config.recovery.policy, s.table[id].idempotencyKey)
  }

  lemma MarkedKeepsKey(r: TaskRecord, now: Time)
    ensures Marked(r, now).idempotencyKey == r.idempotencyKey
  {
  }

  lemma StartSpares(s: State, id: TaskId)
    requires Replayed(s, id) && s.phase == Idle
    ensures id !in Start(s, 0).deferred
  {
    MarkedKeepsKey(s.table[id], 0);
  }

  lemma OvertakenSpared(s: State, id: TaskId) returns (p: Run)
    requires Sane(s) && AtWork(s, id, false, Running) && s.phase == Idle && Replayed(s, id)
    ensures PathFrom(s, p) && Sane(Last(p)) && |p.labels| == 1 && NoReload(p.labels)
      && AtWork(Last(p), id, false, Recovering)
    ensures Last(p).phase == Serving && id !in Last(p).deferred
  {
    StartSpares(s, id);
    StartedAtWork(s, id);
    p := StartPath(s);
  }

  /** Taking the attempt changes nothing that the policy looks at. */
  lemma TakenStillReplayed(s: State, id: TaskId)
    requires Newborn(s, id) && Replayed(s, id)
    ensures Replayed(Taken(s, Handle(id, id), s.table[id], 0), id)
  {
  }

  lemma BeginsReplayed(s: State, id: TaskId) returns (p: Run)
    requires Sane(s) && Newborn(s, id) && Replayed(s, id)
    ensures PathFrom(s, p) && Sane(Last(p)) && |p.labels| == 1 && NoReload(p.labels)
      && AtWork(Last(p), id, false, Running)
    ensures Last(p).phase == s.phase && Last(p).background == s.background && Last(p).config == s.config
      && Replayed(Last(p), id)
  {
    TakenAtWork(s, id);
    TakenKeepsRest(s, Handle(id, id));
    TakenStillReplayed(s, id);
    p := FirstTakes(s, Handle(id, id));
  }

  lemma FinishedIsLost(s: State, id: TaskId)
    requires AtWork(s, id, false, Recovering) && s.phase == Serving && id !in s.deferred
    ensures Lost(Finish(s, Handle(id, id)), id)
  {
    RecoveringIsOpen(s, id);
  }

  lemma LostPath(s: State, id: TaskId) returns (p: Run)
    requires Sane(s) && Newborn(s, id) && s.phase == Idle && Replayed(s, id)
    ensures PathFrom(s, p) && Sane(Last(p)) && NoReload(p.labels) && Lost(Last(p), id)
  {
    p := BeginsReplayed(s, id);
    var q := OvertakenSpared(Last(p), id);
    p := Join(s, p, q);
    FinishedIsLost(Last(p), id);
    q := TimeoutPath(Last(p), id);
    p := Join(s, p, q);
  }

  // ----- A reopened record -----

  lemma RecoveringScheduled(s: State, id: TaskId)
    requires id in s.table && s.table[id].state == Running && s.background == map[] && Replayed(s, id)
    ensures id in ToSchedule(s, MarkRecovering(s.table, 0))
  {
    assert MarkRecovering(s.table, 0)[id] == Marked(s.table[id], 0);
    MarkedKeepsKey(s.table[id], 0);
  }

  lemma TwinJoins(s: State, id: TaskId)
    requires Sane(s) && AtWork(s, id, false, Running) && s.phase == Idle && s.background == map[] && Replayed(s, id)
    ensures var s', g := Start(s, 0), Handle(id, s.supply);
      s'.config == s.config && g in s'.runners && s'.runners[g] == Runner(NotStarted, false) && g != Handle(id, id)
  {
    StartShape(s, 0);
    RecoveringScheduled(s, id);
    assert Handle(id, id) in s.runners;
  }

  /** A second coroutine is scheduled while the first is still in the worker call. */
  lemma TwinScheduled(s: State, id: TaskId) returns (p: Run)
    requires Sane(s) && AtWork(s, id, false, Running) && s.phase == Idle && s.background == map[] && Replayed(s, id)
    ensures PathFrom(s, p) && Sane(Last(p)) && |p.labels| == 1 && NoReload(p.labels)
      && AtWork(Last(p), id, false, Recovering)
    ensures Last(p).config == s.config
    ensures var g := Handle(id, s.supply); g in Last(p).runners && Last(p).runners[g] == Runner(NotStarted, false) && g != Handle(id, id)
  {
    StartedAtWork(s, id);
    TwinJoins(s, id);
    p := StartPath(s);
  }

  ghost predicate Asleep(s: State, g: Handle, id: TaskId) {
    g in s.runners && g.taskId == id && s.runners[g].pc.Sleeping? && !s.runners[g].cancelRequested
  }

  /** It sleeps on the Recovering record. */
  lemma TwinSleeps(s: State, id: TaskId, g: Handle) returns (p: Run)
    requires Sane(s) && AtWork(s, id, false, Recovering) && s.config.recovery.delaySeconds != 0.0
    requires g in s.runners && g.taskId == id && s.runners[g] == Runner(NotStarted, false) && g != Handle(id, id)
    ensures PathFrom(s, p) && Sane(Last(p)) && |p.labels| == 1 && NoReload(p.labels)
      && AtWork(Last(p), id, false, Recovering) && Asleep(Last(p), g, id)
  {
    p := FirstSleeps(s, g);
  }

  /** A timeout on a Recovering record is swallowed, and the ending coroutine unregisters the sleeper. */
  lemma SwallowedTimeout(s: State, id: TaskId, g: Handle) returns (p: Run)
    requires Sane(s) && AtWork(s, id, false, Recovering) && Asleep(s, g, id) && g != Handle(id, id)
    ensures PathFrom(s, p) && Sane(Last(p)) && |p.labels| == 1 && NoReload(p.labels)
    ensures Asleep(Last(p), g, id) && id in Last(p).table && Last(p).table[id].state == Recovering
      && id !in Last(p).background
  {
    p := TimeoutIgnored(s, Handle(id, id));
  }

  /** The caller cancels, and nobody is told. */
  lemma CancelPath(s: State, id: TaskId) returns (p: Run)
    requires Sane(s) && id in s.table && s.table[id].state == Recovering && id !in s.background
    ensures PathFrom(s, p) && Sane(Last(p)) && NoReload(p.labels) && p.labels == [CancelStep(id, 0)]
    ensures Last(p).runners == s.runners && id in Last(p).table && Last(p).table[id].state == Cancelled
  {
    assert RecordOk(id, s.table[id], s.supply);
    CancelIs(s, id, 0);
    p := Take(s, CancelStep(id, 0));
  }

  /** The sleeper wakes and writes its snapshot back. */
  lemma WritesBack(s: State, id: TaskId, g: Handle) returns (p: Run)
    requires Sane(s) && Asleep(s, g, id) && id in s.table
    ensures PathFrom(s, p) && Sane(Last(p)) && NoReload(p.labels) && p.labels == [WakeStep(g, Absent, 0)]
    ensures id in Last(p).table && Last(p).table[id].state == Running
  {
    OwnRecords(s, id);
    var snapshot := s.runners[g].pc.snapshot;
    assert Takeable(s, g, snapshot);
    TakeAttemptIs(s, g, snapshot, 0);
    AttemptedOk(id, snapshot, s.supply, 0);
    p := Take(s, WakeStep(g, Absent, 0));
  }

  /** Step n is the caller's cancel of the open task, and the step after it makes the task Running again. */
  ghost predicate Reopens(p: Run, n: nat, id: TaskId) {
    match p
    case Run(states, labels) =>
      && n + 1 < |labels| && |states| == |labels| + 1
      && labels[n].CancelStep? && labels[n].taskId == id && Open(states[n], id)
      && id in states[n + 1].table && states[n + 1].table[id].state == Cancelled
      && id in states[n + 2].table && states[n + 2].table[id].state == Running
  }

  lemma ReopensLater(p: Run, n: nat, id: TaskId, all: Run, k: nat)
    requires Reopens(p, n, id) && Embeds(all, k, p)
    ensures Reopens(all, k + n, id)
  {
    assert all.labels[k + n] == all.labels[k..][n] && all.states[k + n] == all.states[k..][n];
    assert all.states[k + n + 1] == all.states[k..][n + 1] && all.states[k + n + 2] == all.states[k..][n + 2];
  }

  lemma ReopensJoined(s: State, cancelled: State, q: Run, all: Run, id: TaskId)
    requires PathFrom(s, all) && PathFrom(cancelled, q) && Embeds(all, 1, q)
      && all.labels == [CancelStep(id, 0)] + q.labels && |q.labels| == 1
    requires Open(s, id) && id in cancelled.table && cancelled.table[id].state == Cancelled
    requires id in Last(q).table && Last(q).table[id].state == Running
    ensures Reopens(all, 0, id)
  {
    assert all.states[1] == all.states[1..][0] && all.states[2] == all.states[1..][1];
  }

  lemma CancelAndWake(s: State, id: TaskId, g: Handle) returns (p: Run)
    requires Sane(s) && Asleep(s, g, id) && id in s.table && s.table[id].state == Recovering && id !in s.background
    ensures PathFrom(s, p) && Sane(Last(p)) && NoReload(p.labels) && Reopens(p, 0, id)
  {
    RecoveringIsOpen(s, id);
    p := CancelPath(s, id);
    var q := WritesBack(Last(p), id, g);
    var all := Join(s, p, q);
    ReopensJoined(s, Last(p), q, all, id);
    p := all;
  }

  lemma ReopenPath(s: State, id: TaskId) returns (p: Run)
    requires Sane(s) && Newborn(s, id) && s.phase == Idle && s.background == map[]
    requires Replayed(s, id) && s.config.recovery.delaySeconds != 0.0
    ensures PathFrom(s, p) && Sane(Last(p)) && NoReload(p.labels) && Reopens(p, 4, id)
  {
    p := BeginsReplayed(s, id);
    var g := Handle(id, Last(p).supply);
    var q := TwinScheduled(Last(p), id);
    p := Join(s, p, q);
    q := TwinSleeps(Last(p), id, g);
    p := Join(s, p, q);
    q := SwallowedTimeout(Last(p), id, g);
    p := Join(s, p, q);
    q := CancelAndWake(Last(p), id, g);
    var all := Join(s, p, q);
    ReopensLater(q, 0, id, all, 4);
    p := all;
  }

  // ----- After a reload -----

  /** A reload under which every task is replayed, after a delay. */
  lemma ReloadPath(s: State, id: TaskId) returns (p: Run)
    requires Sane(s) && Newborn(s, id)
    ensures PathFrom(s, p) && Sane(Last(p)) && Newborn(Last(p), id) && Last(p).phase == s.phase
      && Last(p).background == s.background
    ensures Replayed(Last(p), id) && Last(p).config.recovery.delaySeconds != 0.0
  {
    p := Take(s, ReloadStep(s.config.(recovery := RecoveryConfig(Always, 1.0))));
  }

  // ----- Ever more open records -----

  lemma CrashPath(s: State) returns (p: Run)
    requires Sane(s)
    ensures PathFrom(s, p) && Sane(Last(p)) && NoReload(p.labels) && p.labels == [CrashStep] && Last(p) == Crash(s)
  {
    p := Take(s, CrashStep);
  }

  /** The same queued records, in a process that has nothing registered. */
  ghost predicate FreshQueue(s: State, s': State) {
    && s'.phase == Idle && s'.background == map[] && s'.config == s.config
    && forall id :: (id in s'.table && s'.table[id].state in QUEUED_STATES) <==> (id in s.table && s.table[id].state in QUEUED_STATES)
  }

  /** The queued records are the same for each worker too. */
  ghost predicate SameQueuedWorkers(s: State, s': State) {
    forall id :: id in s.table && s.table[id].state in QUEUED_STATES ==>
      id in s'.table && s'.table[id].workerId == s.table[id].workerId
  }

  lemma QueueCounts(s: State, s': State, worker: WorkerId)
    requires FreshQueue(s, s') && SameQueuedWorkers(s, s')
    ensures CountByStates(s'.table, QUEUED_STATES, None) == CountByStates(s.table, QUEUED_STATES, None)
    ensures CountByStates(s'.table, QUEUED_STATES, Some(worker)) == CountByStates(s.table, QUEUED_STATES, Some(worker))
    ensures ActiveIds(s') == {}
  {
    assert IdsIn(s'.table, QUEUED_STATES, None) == IdsIn(s.table, QUEUED_STATES, None);
    assert IdsIn(s'.table, QUEUED_STATES, Some(worker)) == IdsIn(s.table, QUEUED_STATES, Some(worker));
  }

  /** What was admitted before is admitted again, with no key to collide. */
  lemma AdmittedAgain(s: State, s': State, r: Request)
    requires Admission(s, r).Ok? && s.config.limits.perWorkerActiveTasks == None
    requires FreshQueue(s, s') && SameQueuedWorkers(s, s')
    ensures Creates(s', r.(key := None))
  {
    AdmittedIsUnsaturated(s, r);
    QueueCounts(s, s', r.workerId);
    assert Saturation(s', r.workerId).None?;
  }

  lemma RoundTable(table: Table, id: TaskId, task: TaskRecord, taken: TaskRecord)
    requires id !in table && task.state == Pending && taken.state == Running
    ensures OpenIds(table[id := task][id := taken]) == OpenIds(table[id := task])
    ensures var table' := table[id := task][id := taken];
      forall t :: (t in table' && table'[t].state in QUEUED_STATES) <==> (t in table && table[t].state in QUEUED_STATES)
  {
  }

  /** The new task took its attempt, and the process died: one more open record, and the queue is what it was. */
  lemma RoundQueue(s: State, r: Request)
    requires Sane(s) && Creates(s, r)
    ensures var s1 := Submit(s, r);
      && Newborn(s1, s.supply) && Sane(s1)
      && var s2 := Crash(Taken(s1, Handle(s.supply, s.supply), s1.table[s.supply], 0));
         FreshQueue(s, s2) && SameQueuedWorkers(s, s2) && OpenIds(s2.table) == OpenIds(s1.table)
  {
    SubmitSane(s, r);
    CreatedNewborn(s, r);
    CreateIs(s, r);
    var task := NewRecord(s, r, Admission(s, r).value);
    AttemptedOk(s.supply, task, s.supply + 1, 0);
    RoundTable(s.table, s.supply, task, Attempted(task, s.supply + 1, 0));
  }

  lemma RoundSteps(s: State, r: Request) returns (p: Run)
    requires Sane(s) && Creates(s, r) && Newborn(Submit(s, r), s.supply)
    ensures PathFrom(s, p) && Sane(Last(p)) && p.labels != [] && p.labels[0] == SubmitStep(r) && NoReload(p.labels)
    ensures Last(p) == Crash(Taken(Submit(s, r), Handle(s.supply, s.supply), Submit(s, r).table[s.supply], 0))
  {
    p := Take(s, SubmitStep(r));
    var q := FirstTakes(Last(p), Handle(s.supply, s.supply));
    p := Join(s, p, q);
    q := CrashPath(Last(p));
    p := Join(s, p, q);
  }

  /** Submit, take the attempt, crash. */
  lemma Round(s: State, r: Request) returns (p: Run)
    requires Sane(s) && Creates(s, r) && s.phase == Idle
    ensures PathFrom(s, p) && Sane(Last(p)) && p.labels != [] && p.labels[0] == SubmitStep(r) && NoReload(p.labels)
    ensures FreshQueue(s, Last(p)) && SameQueuedWorkers(s, Last(p))
      && |OpenIds(Last(p).table)| == |OpenIds(s.table)| + 1
  {
    RoundQueue(s, r);
    CreateAddsOne(s, r);
    p := RoundSteps(s, r);
  }

  /** As many rounds as one likes, with no key to collide. */
  lemma {:induction false} RoundsFrom(s: State, r: Request, n: nat, open: nat) returns (p: Run)
    requires Sane(s) && Creates(s, r) && s.phase == Idle && s.config.limits.perWorkerActiveTasks == None && n > 0
    requires r.key == None && open == |OpenIds(s.table)|
    ensures PathFrom(s, p) && Sane(Last(p)) && NoReload(p.labels) && |OpenIds(Last(p).table)| == open + n
    decreases n
  {
    p := Round(s, r);
    if n > 1 {
      AdmittedAgain(s, Last(p), r);
      var q := RoundsFrom(Last(p), r, n - 1, open + 1);
      p := Join(s, p, q);
    }
  }

  lemma Rounds(s: State, r: Request, n: nat) returns (p: Run)
    requires Sane(s) && Creates(s, r) && s.phase == Idle && s.config.limits.perWorkerActiveTasks == None
    ensures PathFrom(s, p) && Sane(Last(p)) && p.labels != [] && p.labels[0] == SubmitStep(r) && NoReload(p.labels)
    ensures |OpenIds(Last(p).table)| >= n
  {
    p := Round(s, r);
    if n > 1 {
      AdmittedAgain(s, Last(p), r);
      var q := RoundsFrom(Last(p), r.(key := None), n - 1, |OpenIds(Last(p).table)|);
      p := Join(s, p, q);
    }
  }
}
