/**
 The submissions that lose a guarantee, and only those. `call` does not look at `_started`, and `stop`
 clears the background map after its wait without looking for newcomers (ai_bridge/manager.py:53-59,
 74-119). From every reachable state: what can happen to a submitted task after all, and exactly when.
 */
module Converses {
  import opened Wrappers
  import opened TaskStates
  import opened TaskTable
  import opened Protocol
  import opened Invariant
  import opened TaskLife
  import opened Theorems
  import opened Dispatches
  import opened Accounting
  import opened Effects
  import opened Paths
  import opened Unreplayed

  // ----- Runs that go on -----

  /** A longer run whose next step is this submission. */
  ghost predicate Continues(run: Run, r: Request, more: Run) {
    && IsRun(run) && IsRun(more) && |run.labels| < |more.labels|
    && run.states == more.states[..|run.states|] && run.labels == more.labels[..|run.labels|]
    && more.labels[|run.labels|] == SubmitStep(r)
  }

  /** The configuration stays as the submission found it. */
  ghost predicate Unreloaded(run: Run, more: Run) {
    forall i :: |run.labels| <= i < |more.labels| ==> !more.labels[i].ReloadStep?
  }

  lemma LastSane(run: Run)
    requires IsRun(run)
    ensures Sane(Last(run))
  {
    RunSane(run, |run.labels|);
  }

  lemma GoOn(run: Run, r: Request, p: Run) returns (more: Run)
    requires IsRun(run) && PathFrom(Last(run), p) && p.labels != [] && p.labels[0] == SubmitStep(r)
    ensures Continues(run, r, more) && Last(more) == Last(p) && Embeds(more, |run.labels|, p)
    ensures NoReload(p.labels) ==> Unreloaded(run, more)
  {
    more := Join(run.states[0], run, p);
    assert run.states == more.states[..|run.states|];
    assert run.labels == more.labels[..|run.labels|];
  }

  /** A continuation goes on. */
  lemma Extend(run: Run, r: Request, more: Run, p: Run) returns (all: Run)
    requires Continues(run, r, more) && PathFrom(Last(more), p)
    ensures Continues(run, r, all) && Last(all) == Last(p) && Embeds(all, |more.labels|, p)
    ensures Unreloaded(run, more) && NoReload(p.labels) ==> Unreloaded(run, all)
  {
    all := Join(more.states[0], more, p);
    assert run.states == all.states[..|run.states|];
    assert run.labels == all.labels[..|run.labels|];
  }

  // ----- A submission that is not late -----

  lemma SupplyNeverShrinks(s: State, l: Label)
    requires Sane(s) && Enabled(s, l)
    ensures s.supply <= Next(s, l).supply
  {
    if Own(l) {
      OwnStepSane(s, l);
    } else if l.CancelStep? {
      if l.taskId in s.table { CancelSane(s, l.taskId, l.now); }
    }
  }

  lemma SupplyGrowsAt(run: Run, i: nat)
    requires IsRun(run) && i < |run.labels|
    ensures run.states[i].supply <= run.states[i + 1].supply
  {
    StepFacts(run, i);
    SupplyNeverShrinks(run.states[i], run.labels[i]);
  }

  lemma {:induction false} SupplyGrowsAlong(run: Run, i: nat, j: nat)
    requires IsRun(run) && i <= j < |run.states|
    ensures run.states[i].supply <= run.states[j].supply
    decreases j
  {
    if i < j {
      SupplyGrowsAlong(run, i, j - 1);
      SupplyGrowsAt(run, j - 1);
    }
  }

  lemma CreationCounts(run: Run, i: nat, id: TaskId)
    requires IsRun(run) && CreatedAt(run, i, id)
    ensures run.states[i + 1].supply == id + 1
  {
    StepFacts(run, i);
    CreateIs(run.states[i], run.labels[i].request);
  }

  lemma SupplyPassed(run: Run, i: nat, j: nat, id: TaskId)
    requires IsRun(run) && i < j < |run.states| && run.states[i + 1].supply == id + 1
    ensures run.states[j].supply != id
  {
    SupplyGrowsAlong(run, i + 1, j);
  }

  /** A task is created once. */
  lemma CreatedOnce(run: Run, i: nat, j: nat, id: TaskId)
    requires IsRun(run) && i < j && CreatedAt(run, i, id)
    ensures !CreatedAt(run, j, id)
  {
    CreationCounts(run, i, id);
    if j < |run.labels| {
      SupplyPassed(run, i, j, id);
    }
  }

  lemma SubmittedThere(run: Run, r: Request, more: Run)
    requires Continues(run, r, more) && Creates(Last(run), r)
    ensures more.states[|run.labels|] == Last(run) && CreatedAt(more, |run.labels|, Last(run).supply)
  {
    assert more.states[..|run.states|][|run.labels|] == run.states[|run.labels|];
  }

  /** The run's continuation is timely for the task exactly as its first step is. */
  lemma ContinuesTimely(run: Run, r: Request, more: Run, clean: bool)
    requires Continues(run, r, more) && Creates(Last(run), r) && Timely(Last(run).phase, clean)
    ensures TimelyFor(more, Last(run).supply, clean)
  {
    var n, id := |run.labels|, Last(run).supply;
    SubmittedThere(run, r, more);
    forall i | 0 <= i < |more.labels| && CreatedAt(more, i, id) ensures i == n {
      if i < n {
        CreatedOnce(more, i, n, id);
      } else if n < i {
        CreatedOnce(more, n, i, id);
      }
    }
  }

  lemma {:induction false} ConfigKept(run: Run, more: Run, i: nat)
    requires IsRun(more) && Unreloaded(run, more) && |run.labels| <= i < |more.states|
    ensures more.states[i].config == more.states[|run.labels|].config
  {
    if i > |run.labels| {
      ConfigKept(run, more, i - 1);
      ConfigStays(more, i - 1);
    }
  }

  lemma NotYetThere(s: State, id: TaskId)
    requires Sane(s) && s.supply <= id
    ensures id !in s.table
  {
    assert forall t :: t in s.table ==> RecordOk(t, s.table[t], s.supply);
  }

  /** The step after the submission's state is its creation. */
  lemma Created(run: Run, r: Request, more: Run)
    requires Continues(run, r, more) && Creates(Last(run), r)
    ensures more.states[|run.labels|] == Last(run)
    ensures var s := more.states[|run.labels| + 1];
      Last(run).supply in s.table && s.table[Last(run).supply].idempotencyKey == r.key && s.config == Last(run).config
  {
    SubmittedThere(run, r, more);
    StepFacts(more, |run.labels|);
    CreateIs(Last(run), r);
  }

  /** After the submission the task has its key, and without a reload the configuration is what it was. */
  lemma KeptAfter(run: Run, r: Request, more: Run, i: nat)
    requires Continues(run, r, more) && Creates(Last(run), r) && |run.labels| < i < |more.states|
    ensures Last(run).supply in more.states[i].table && more.states[i].table[Last(run).supply].idempotencyKey == r.key
    ensures Unreloaded(run, more) ==> more.states[i].config == Last(run).config
  {
    Created(run, r, more);
    TaskKept(more, |run.labels| + 1, i, Last(run).supply);
    if Unreloaded(run, more) {
      ConfigKept(run, more, i);
    }
  }

  lemma NotThereBefore(run: Run, r: Request, more: Run, i: nat)
    requires Continues(run, r, more) && Creates(Last(run), r) && i <= |run.labels|
    ensures Last(run).supply !in more.states[i].table
  {
    Created(run, r, more);
    SupplyGrowsAlong(more, i, |run.labels|);
    RunSane(more, i);
    NotYetThere(more.states[i], Last(run).supply);
  }

  /** Before the submission the task does not exist, and afterwards its key and the policy are what they were. */
  lemma StillRefused(run: Run, r: Request, more: Run, i: nat)
    requires Continues(run, r, more) && Creates(Last(run), r) && RefusesReplay(Last(run).config.recovery.policy, r.key)
      && Unreloaded(run, more)
    requires i < |more.states|
    ensures RefusedAt(more.states[i], Last(run).supply)
  {
    if i <= |run.labels| {
      NotThereBefore(run, r, more, i);
    } else {
      KeptAfter(run, r, more, i);
    }
  }

  lemma RefusedThroughout(run: Run, r: Request, more: Run, id: TaskId, n: nat)
    requires Continues(run, r, more) && Unreloaded(run, more) && Creates(Last(run), r) && id == Last(run).supply
    requires RefusesReplay(Last(run).config.recovery.policy, r.key) && n < |more.states|
    ensures RefusedUpTo(more, n, id)
  {
    forall i | 0 <= i <= n ensures RefusedAt(more.states[i], id) {
      StillRefused(run, r, more, i);
    }
  }

  lemma UndelayedThroughout(run: Run, r: Request, more: Run, id: TaskId, n: nat)
    requires Continues(run, r, more) && Unreloaded(run, more) && Creates(Last(run), r) && id == Last(run).supply
    requires Last(run).config.recovery.delaySeconds == 0.0 && n < |more.states|
    ensures UndelayedUpTo(more, n, id)
  {
    forall i | 0 <= i <= n && id in more.states[i].table ensures more.states[i].config.recovery.delaySeconds == 0.0 {
      if i <= |run.labels| {
        NotThereBefore(run, r, more, i);
      } else {
        KeptAfter(run, r, more, i);
      }
    }
  }

  lemma OrderlyThroughout(run: Run, r: Request, more: Run, id: TaskId, clean: bool)
    requires Continues(run, r, more) && Creates(Last(run), r) && Timely(Last(run).phase, clean)
      && id == Last(run).supply
    ensures OrderlyFor(more, id, clean)
  {
    ContinuesTimely(run, r, more, clean);
    TimelyIsOrderly(more, id, clean);
  }

  // ----- The newcomer at an idle manager -----

  lemma StopEnds(run: Run, r: Request, p: Run, more: Run)
    requires Continues(run, r, more) && Embeds(more, |run.labels|, p) && EndsStop(p)
    ensures StopReturns(more, |more.labels| - 1)
  {
    var k, n := |run.labels|, |p.labels|;
    assert more.labels[k..][n - 1] == more.labels[k + n - 1];
    assert more.states[k..][n - 1] == more.states[k + n - 1] && more.states[k..][n] == more.states[k + n];
  }

  /**
   A submission that does not find the manager serving goes on, without a reload, to an idle manager with its task not
   yet begun.
   */
  lemma IdleNewcomer(run: Run, r: Request) returns (more: Run)
    requires IsRun(run) && Creates(Last(run), r) && Last(run).phase != Serving
    ensures Continues(run, r, more) && Unreloaded(run, more)
    ensures Sane(Last(more)) && Newborn(Last(more), Last(run).supply) && Last(more).phase == Idle
    ensures Last(run).phase.Stopping? ==> Last(more).background == map[] && StopReturns(more, |more.labels| - 1)
  {
    LastSane(run);
    var p := ToIdle(Last(run), r);
    more := GoOn(run, r, p);
    if Last(run).phase.Stopping? {
      StopEnds(run, r, p, more);
    }
  }

  lemma ReplayedAs(s: State, id: TaskId, config: Config, key: Option<string>)
    requires s.config == config && id in s.table && s.table[id].idempotencyKey == key
    ensures Replayed(s, id) <==> !RefusesReplay(config.recovery.policy, key)
  {
  }

  lemma KeyKeptToTheEnd(run: Run, i: nat, id: TaskId, key: Option<string>)
    requires IsRun(run) && i < |run.states| && id in run.states[i].table
      && run.states[i].table[id].idempotencyKey == key
    ensures id in Last(run).table && Last(run).table[id].idempotencyKey == key
  {
    TaskKept(run, i, |run.labels|, id);
  }

  lemma ConfigKeptToTheEnd(run: Run, more: Run)
    requires IsRun(more) && Unreloaded(run, more) && |run.labels| < |more.labels|
    ensures Last(more).config == more.states[|run.labels|].config
  {
    ConfigKept(run, more, |more.labels|);
  }

  lemma StillThere(run: Run, r: Request, more: Run)
    requires Continues(run, r, more) && Unreloaded(run, more) && Creates(Last(run), r)
    ensures Last(more).config == Last(run).config
    ensures Last(run).supply in Last(more).table && Last(more).table[Last(run).supply].idempotencyKey == r.key
  {
    Created(run, r, more);
    KeyKeptToTheEnd(more, |run.labels| + 1, Last(run).supply, r.key);
    ConfigKeptToTheEnd(run, more);
  }

  /** Its key and the configuration are those of the submission. */
  lemma NewcomerReplayed(run: Run, r: Request, more: Run)
    requires Continues(run, r, more) && Unreloaded(run, more) && Creates(Last(run), r)
    ensures Replayed(Last(more), Last(run).supply) <==> !RefusesReplay(Last(run).config.recovery.policy, r.key)
    ensures Last(more).config == Last(run).config
  {
    StillThere(run, r, more);
    ReplayedAs(Last(more), Last(run).supply, Last(run).config, r.key);
  }

  // ----- Sent twice -----

  lemma SentTwice(run: Run, r: Request) returns (more: Run)
    requires IsRun(run) && Creates(Last(run), r) && Last(run).phase.Stopping?
    ensures Continues(run, r, more) && Unreloaded(run, more) && Sends(Last(more).log, Last(run).supply) >= 2
  {
    more := IdleNewcomer(run, r);
    var p := SentTwicePath(Last(more), Last(run).supply);
    more := Extend(run, r, more, p);
  }

  lemma AtMostOnceToTheEnd(run: Run, id: TaskId)
    requires OrderlyFor(run, id, false) && RefusedUpTo(run, |run.labels|, id)
    ensures Sends(Last(run).log, id) <= 1
  {
    AtMostOnce(run, |run.labels|, id);
  }

  lemma SentOnce(run: Run, r: Request, more: Run)
    requires Continues(run, r, more) && Unreloaded(run, more) && !Last(run).phase.Stopping?
    requires Creates(Last(run), r) && RefusesReplay(Last(run).config.recovery.policy, r.key)
    ensures Sends(Last(more).log, Last(run).supply) <= 1
  {
    var id := Last(run).supply;
    OrderlyThroughout(run, r, more, id, false);
    RefusedThroughout(run, r, more, id, |more.labels|);
    AtMostOnceToTheEnd(more, id);
  }

  /**
   At most once, exactly: a submission whose task the policy refuses to replay can be sent twice, with
   the configuration left alone, if and only if it is accepted while a stop waits.
   */
  lemma SentTwiceIffStopping(run: Run, r: Request)
    requires IsRun(run) && Creates(Last(run), r) && RefusesReplay(Last(run).config.recovery.policy, r.key)
    ensures Last(run).phase.Stopping?
      <==> exists more: Run :: Continues(run, r, more) && Unreloaded(run, more) && Sends(Last(more).log, Last(run).supply) >= 2
  {
    if Last(run).phase.Stopping? {
      var more := SentTwice(run, r);
    } else {
      forall more: Run | Continues(run, r, more) && Unreloaded(run, more)
        ensures Sends(Last(more).log, Last(run).supply) <= 1 {
        SentOnce(run, r, more);
      }
    }
  }

  // ----- Reopened -----

  lemma ReopenedFrom(run: Run, r: Request, more: Run) returns (all: Run, n: nat)
    requires Continues(run, r, more) && Sane(Last(more)) && Newborn(Last(more), Last(run).supply)
    requires Last(more).phase == Idle && Last(more).background == map[]
    requires Replayed(Last(more), Last(run).supply) && Last(more).config.recovery.delaySeconds != 0.0
    ensures Continues(run, r, all) && Reopens(all, n, Last(run).supply)
    ensures Unreloaded(run, more) ==> Unreloaded(run, all)
  {
    var p := ReopenPath(Last(more), Last(run).supply);
    all := Extend(run, r, more, p);
    n := |more.labels| + 4;
    ReopensLater(p, 4, Last(run).supply, all, |more.labels|);
  }

  lemma ReopenedAsIs(run: Run, r: Request) returns (more: Run, n: nat)
    requires IsRun(run) && Creates(Last(run), r) && Last(run).phase.Stopping?
    requires !RefusesReplay(Last(run).config.recovery.policy, r.key) && Last(run).config.recovery.delaySeconds != 0.0
    ensures Continues(run, r, more) && Unreloaded(run, more) && Reopens(more, n, Last(run).supply)
  {
    more := IdleNewcomer(run, r);
    NewcomerReplayed(run, r, more);
    more, n := ReopenedFrom(run, r, more);
  }

  lemma ReopenedByReload(run: Run, r: Request) returns (more: Run, n: nat)
    requires IsRun(run) && Creates(Last(run), r) && Last(run).phase.Stopping?
    ensures Continues(run, r, more) && Reopens(more, n, Last(run).supply)
  {
    more := IdleNewcomer(run, r);
    var p := ReloadPath(Last(more), Last(run).supply);
    more := Extend(run, r, more, p);
    more, n := ReopenedFrom(run, r, more);
  }

  lemma OrderlyNeverReopens(run: Run, n: nat, id: TaskId)
    requires OrderlyFor(run, id, false)
    ensures !Reopens(run, n, id)
  {
    if Reopens(run, n, id) {
      CancelIsFinal(run, n, n + 2);
    }
  }

  lemma RefusedNeverReopens(run: Run, n: nat, id: TaskId)
    requires IsRun(run) && n + 2 < |run.states| && RefusedUpTo(run, n + 2, id)
    ensures !Reopens(run, n, id)
  {
    if Reopens(run, n, id) {
      RefusedFrozen(run, n + 1, n + 2, id);
    }
  }

  lemma UndelayedNeverReopens(run: Run, n: nat, id: TaskId)
    requires IsRun(run) && n + 2 < |run.states| && UndelayedUpTo(run, n + 2, id)
    ensures !Reopens(run, n, id)
  {
    if Reopens(run, n, id) {
      UndelayedFrozen(run, n + 1, n + 2, id);
    }
  }

  lemma NeverReopens(run: Run, r: Request, more: Run, n: nat)
    requires Continues(run, r, more) && Creates(Last(run), r) && !Last(run).phase.Stopping?
    ensures !Reopens(more, n, Last(run).supply)
  {
    OrderlyThroughout(run, r, more, Last(run).supply, false);
    OrderlyNeverReopens(more, n, Last(run).supply);
  }

  lemma NeverReopensRefused(run: Run, r: Request, more: Run, n: nat)
    requires Continues(run, r, more) && Unreloaded(run, more) && Creates(Last(run), r)
    requires RefusesReplay(Last(run).config.recovery.policy, r.key)
    ensures !Reopens(more, n, Last(run).supply)
  {
    if n + 2 < |more.states| {
      RefusedThroughout(run, r, more, Last(run).supply, n + 2);
      RefusedNeverReopens(more, n, Last(run).supply);
    }
  }

  lemma NeverReopensUndelayed(run: Run, r: Request, more: Run, n: nat)
    requires Continues(run, r, more) && Unreloaded(run, more) && Creates(Last(run), r)
    requires Last(run).config.recovery.delaySeconds == 0.0
    ensures !Reopens(more, n, Last(run).supply)
  {
    if n + 2 < |more.states| {
      UndelayedThroughout(run, r, more, Last(run).supply, n + 2);
      UndelayedNeverReopens(more, n, Last(run).supply);
    }
  }

  /**
   A caller's cancel of the task can be undone, perhaps after a reload, if and only if the submission is accepted while
   a stop waits.
   */
  lemma ReopenedIffStopping(run: Run, r: Request)
    requires IsRun(run) && Creates(Last(run), r)
    ensures Last(run).phase.Stopping?
      <==> exists more: Run, n: nat :: Continues(run, r, more) && Reopens(more, n, Last(run).supply)
  {
    if Last(run).phase.Stopping? {
      var more, n := ReopenedByReload(run, r);
    } else {
      forall more: Run, n: nat | Continues(run, r, more) ensures !Reopens(more, n, Last(run).supply) {
        NeverReopens(run, r, more, n);
      }
    }
  }

  /**
   With the configuration left alone it can be undone if and only if, besides, the policy replays the task and there is
   a recovery delay.
   */
  lemma ReopenedAsIsIff(run: Run, r: Request)
    requires IsRun(run) && Creates(Last(run), r)
    ensures Last(run).phase.Stopping? && !RefusesReplay(Last(run).config.recovery.policy, r.key)
      && Last(run).config.recovery.delaySeconds != 0.0
      <==> exists more: Run, n: nat :: Continues(run, r, more) && Unreloaded(run, more) && Reopens(more, n, Last(run).supply)
  {
    if Last(run).phase.Stopping? && !RefusesReplay(Last(run).config.recovery.policy, r.key)
      && Last(run).config.recovery.delaySeconds != 0.0 {
      var more, n := ReopenedAsIs(run, r);
    } else {
      forall more: Run, n: nat | Continues(run, r, more) && Unreloaded(run, more)
        ensures !Reopens(more, n, Last(run).supply) {
        if !Last(run).phase.Stopping? {
          NeverReopens(run, r, more, n);
        } else if RefusesReplay(Last(run).config.recovery.policy, r.key) {
          NeverReopensRefused(run, r, more, n);
        } else {
          NeverReopensUndelayed(run, r, more, n);
        }
      }
    }
  }

  // ----- A refused reply -----

  lemma RefusedFrom(run: Run, r: Request, idle: Run) returns (more: Run, n: nat)
    requires Continues(run, r, idle) && Unreloaded(run, idle) && Sane(Last(idle))
      && Newborn(Last(idle), Last(run).supply)
    requires Last(idle).phase == Idle
    ensures Continues(run, r, more) && Unreloaded(run, more) && RefusesReply(more, n, Last(run).supply)
  {
    var p := RefusedReplyPath(Last(idle), Last(run).supply);
    more := Extend(run, r, idle, p);
    n := |idle.labels| + 3;
    RefusedLater(p, 3, Last(run).supply, more, |idle.labels|);
  }

  lemma Refused(run: Run, r: Request) returns (more: Run, n: nat)
    requires IsRun(run) && Creates(Last(run), r) && Last(run).phase != Serving
    ensures Continues(run, r, more) && Unreloaded(run, more) && RefusesReply(more, n, Last(run).supply)
  {
    var idle := IdleNewcomer(run, r);
    more, n := RefusedFrom(run, r, idle);
  }

  lemma OrderlyNeverRefuses(run: Run, n: nat, id: TaskId)
    requires OrderlyFor(run, id, true)
    ensures !RefusesReply(run, n, id)
  {
    if RefusesReply(run, n, id) {
      CompletionNeverRefused(run, n);
    }
  }

  lemma NeverRefuses(run: Run, r: Request, more: Run, n: nat)
    requires Continues(run, r, more) && Creates(Last(run), r) && Last(run).phase == Serving
    ensures !RefusesReply(more, n, Last(run).supply)
  {
    OrderlyThroughout(run, r, more, Last(run).supply, true);
    OrderlyNeverRefuses(more, n, Last(run).supply);
  }

  /**
   The worker's reply for the task can be refused, without a reload, if and only if the submission is accepted while the
   manager is not serving.
   */
  lemma RefusedReplyIffNotServing(run: Run, r: Request)
    requires IsRun(run) && Creates(Last(run), r)
    ensures Last(run).phase != Serving
      <==> exists more: Run, n: nat :: Continues(run, r, more) && Unreloaded(run, more) && RefusesReply(more, n, Last(run).supply)
    ensures Last(run).phase == Serving ==> forall more: Run, n: nat :: Continues(run, r, more) ==>
      !RefusesReply(more, n, Last(run).supply)
  {
    if Last(run).phase == Serving {
      forall more: Run, n: nat | Continues(run, r, more) ensures !RefusesReply(more, n, Last(run).supply) {
        NeverRefuses(run, r, more, n);
      }
    } else {
      var more, n := Refused(run, r);
    }
  }

  // ----- A swallowed failure -----

  lemma SwallowedFrom(run: Run, r: Request, idle: Run) returns (more: Run, n: nat)
    requires Continues(run, r, idle) && Unreloaded(run, idle) && Sane(Last(idle))
      && Newborn(Last(idle), Last(run).supply)
    requires Last(idle).phase == Idle
    ensures Continues(run, r, more) && Unreloaded(run, more) && Swallows(more, n, Last(run).supply)
  {
    var p := SwallowedPath(Last(idle), Last(run).supply);
    more := Extend(run, r, idle, p);
    n := |idle.labels| + 2;
    SwallowsLater(p, 2, Last(run).supply, more, |idle.labels|);
  }

  lemma Swallowed(run: Run, r: Request) returns (more: Run, n: nat)
    requires IsRun(run) && Creates(Last(run), r) && Last(run).phase != Serving
    ensures Continues(run, r, more) && Unreloaded(run, more) && Swallows(more, n, Last(run).supply)
  {
    var idle := IdleNewcomer(run, r);
    more, n := SwallowedFrom(run, r, idle);
  }

  lemma OrderlyNeverSwallows(run: Run, n: nat, id: TaskId)
    requires OrderlyFor(run, id, true)
    ensures !Swallows(run, n, id)
  {
    if Swallows(run, n, id) {
      FailureRecorded(run, n);
    }
  }

  lemma NeverSwallows(run: Run, r: Request, more: Run, n: nat)
    requires Continues(run, r, more) && Creates(Last(run), r) && Last(run).phase == Serving
    ensures !Swallows(more, n, Last(run).supply)
  {
    OrderlyThroughout(run, r, more, Last(run).supply, true);
    OrderlyNeverSwallows(more, n, Last(run).supply);
  }

  /**
   A call for the task can raise and end its coroutine with the open task left open, without a reload, if and
   only if the submission is accepted while the manager is not serving.
   */
  lemma SwallowedIffNotServing(run: Run, r: Request)
    requires IsRun(run) && Creates(Last(run), r)
    ensures Last(run).phase != Serving
      <==> exists more: Run, n: nat :: Continues(run, r, more) && Unreloaded(run, more) && Swallows(more, n, Last(run).supply)
    ensures Last(run).phase == Serving ==> forall more: Run, n: nat :: Continues(run, r, more) ==>
      !Swallows(more, n, Last(run).supply)
  {
    if Last(run).phase == Serving {
      forall more: Run, n: nat | Continues(run, r, more) ensures !Swallows(more, n, Last(run).supply) {
        NeverSwallows(run, r, more, n);
      }
    } else {
      var more, n := Swallowed(run, r);
    }
  }

  // ----- Lost -----

  lemma LostFrom(run: Run, r: Request, more: Run) returns (all: Run)
    requires Continues(run, r, more) && Sane(Last(more)) && Newborn(Last(more), Last(run).supply)
    requires Last(more).phase == Idle && Replayed(Last(more), Last(run).supply)
    ensures Continues(run, r, all) && Lost(Last(all), Last(run).supply)
    ensures Unreloaded(run, more) ==> Unreloaded(run, all)
  {
    var p := LostPath(Last(more), Last(run).supply);
    all := Extend(run, r, more, p);
  }

  lemma LostAsIs(run: Run, r: Request) returns (more: Run)
    requires IsRun(run) && Creates(Last(run), r) && Last(run).phase != Serving
    requires !RefusesReplay(Last(run).config.recovery.policy, r.key)
    ensures Continues(run, r, more) && Unreloaded(run, more) && Lost(Last(more), Last(run).supply)
  {
    more := IdleNewcomer(run, r);
    NewcomerReplayed(run, r, more);
    more := LostFrom(run, r, more);
  }

  lemma LostByReload(run: Run, r: Request) returns (more: Run)
    requires IsRun(run) && Creates(Last(run), r) && Last(run).phase != Serving
    ensures Continues(run, r, more) && Lost(Last(more), Last(run).supply)
  {
    more := IdleNewcomer(run, r);
    var p := ReloadPath(Last(more), Last(run).supply);
    more := Extend(run, r, more, p);
    more := LostFrom(run, r, more);
  }

  lemma OrderlyNeverLost(run: Run, id: TaskId)
    requires OrderlyFor(run, id, true)
    ensures !Lost(Last(run), id)
  {
    if Lost(Last(run), id) {
      NoLostTask(run, |run.labels|, id);
    }
  }

  lemma RefusedNeverLostToTheEnd(run: Run, id: TaskId)
    requires IsRun(run) && RefusedUpTo(run, |run.labels|, id)
    ensures !Lost(Last(run), id)
  {
    if Lost(Last(run), id) {
      RefusedNeverLost(run, |run.labels|, id);
    }
  }

  lemma NeverLost(run: Run, r: Request, more: Run)
    requires Continues(run, r, more) && Creates(Last(run), r) && Last(run).phase == Serving
    ensures !Lost(Last(more), Last(run).supply)
  {
    OrderlyThroughout(run, r, more, Last(run).supply, true);
    OrderlyNeverLost(more, Last(run).supply);
  }

  lemma NeverLostRefused(run: Run, r: Request, more: Run)
    requires Continues(run, r, more) && Unreloaded(run, more) && Creates(Last(run), r)
    requires RefusesReplay(Last(run).config.recovery.policy, r.key)
    ensures !Lost(Last(more), Last(run).supply)
  {
    RefusedThroughout(run, r, more, Last(run).supply, |more.labels|);
    RefusedNeverLostToTheEnd(more, Last(run).supply);
  }

  /**
   No lost task, exactly: while the manager serves again the task can be open with no registered coroutine and
   not deferred, perhaps after a reload, if and only if the submission is accepted while the manager is not serving.
   */
  lemma LostIffNotServing(run: Run, r: Request)
    requires IsRun(run) && Creates(Last(run), r)
    ensures Last(run).phase != Serving
      <==> exists more: Run :: Continues(run, r, more) && Lost(Last(more), Last(run).supply)
  {
    if Last(run).phase != Serving {
      var more := LostByReload(run, r);
    } else {
      forall more: Run | Continues(run, r, more) ensures !Lost(Last(more), Last(run).supply) {
        NeverLost(run, r, more);
      }
    }
  }

  /** With the configuration left alone, if and only if, besides, the policy replays the task. */
  lemma LostAsIsIff(run: Run, r: Request)
    requires IsRun(run) && Creates(Last(run), r)
    ensures Last(run).phase != Serving && !RefusesReplay(Last(run).config.recovery.policy, r.key)
      <==> exists more: Run :: Continues(run, r, more) && Unreloaded(run, more) && Lost(Last(more), Last(run).supply)
  {
    if Last(run).phase != Serving && !RefusesReplay(Last(run).config.recovery.policy, r.key) {
      var more := LostAsIs(run, r);
    } else {
      forall more: Run | Continues(run, r, more) && Unreloaded(run, more) ensures !Lost(Last(more), Last(run).supply) {
        if Last(run).phase == Serving {
          NeverLost(run, r, more);
        } else {
          NeverLostRefused(run, r, more);
        }
      }
    }
  }

  // ----- Left behind -----

  /** A stop has just returned, and a coroutine of the task is alive. */
  ghost predicate LeftBehind(run: Run, id: TaskId) {
    |run.labels| > 0 && StopReturns(run, |run.labels| - 1) && exists h :: h in Last(run).runners && h.taskId == id
  }

  lemma ForgottenNewcomer(run: Run, r: Request) returns (more: Run)
    requires IsRun(run) && Creates(Last(run), r) && Last(run).phase.Stopping?
    ensures Continues(run, r, more) && Unreloaded(run, more) && LeftBehind(more, Last(run).supply)
  {
    more := IdleNewcomer(run, r);
    assert Handle(Last(run).supply, Last(run).supply) in Last(more).runners;
  }

  lemma TimelyNeverLeftBehind(run: Run, id: TaskId)
    requires TimelyFor(run, id, false)
    ensures !LeftBehind(run, id)
  {
    if LeftBehind(run, id) {
      var h :| h in Last(run).runners && h.taskId == id;
      GracefulStop(run, |run.labels| - 1, id, h);
    }
  }

  lemma NeverLeftBehind(run: Run, r: Request, more: Run)
    requires Continues(run, r, more) && Creates(Last(run), r) && !Last(run).phase.Stopping?
    ensures !LeftBehind(more, Last(run).supply)
  {
    ContinuesTimely(run, r, more, false);
    TimelyNeverLeftBehind(more, Last(run).supply);
  }

  /**
   A stop can return with a coroutine of the task alive, without a reload, if and only if the submission is accepted
   while a stop waits.
   */
  lemma LeftBehindIffStopping(run: Run, r: Request)
    requires IsRun(run) && Creates(Last(run), r)
    ensures Last(run).phase.Stopping?
      <==> exists more: Run :: Continues(run, r, more) && Unreloaded(run, more) && LeftBehind(more, Last(run).supply)
    ensures !Last(run).phase.Stopping? ==> forall more: Run :: Continues(run, r, more) ==>
      !LeftBehind(more, Last(run).supply)
  {
    if Last(run).phase.Stopping? {
      var more := ForgottenNewcomer(run, r);
    } else {
      forall more: Run | Continues(run, r, more) ensures !LeftBehind(more, Last(run).supply) {
        NeverLeftBehind(run, r, more);
      }
    }
  }

  // ----- Sent after a cancel -----

  lemma UnheardFrom(run: Run, r: Request, idle: Run) returns (more: Run, n: nat, m: nat)
    requires Continues(run, r, idle) && Unreloaded(run, idle) && Sane(Last(idle))
      && Newborn(Last(idle), Last(run).supply)
    requires Last(idle).background == map[]
    ensures Continues(run, r, more) && Unreloaded(run, more) && SendsAfterCancel(more, n, m, Last(run).supply)
  {
    var p := UnheardCancelPath(Last(idle), Last(run).supply);
    more := Extend(run, r, idle, p);
    n, m := |idle.labels| + 1, |idle.labels| + 2;
    SentAfterLater(p, 1, 2, Last(run).supply, more, |idle.labels|);
  }

  lemma Unheard(run: Run, r: Request) returns (more: Run, n: nat, m: nat)
    requires IsRun(run) && Creates(Last(run), r) && Last(run).phase.Stopping?
    ensures Continues(run, r, more) && Unreloaded(run, more) && SendsAfterCancel(more, n, m, Last(run).supply)
  {
    var idle := IdleNewcomer(run, r);
    more, n, m := UnheardFrom(run, r, idle);
  }

  lemma TimelyNeverUnheard(run: Run, n: nat, m: nat, id: TaskId)
    requires TimelyFor(run, id, false)
    ensures !SendsAfterCancel(run, n, m, id)
  {
    if SendsAfterCancel(run, n, m, id) {
      CancelStopsTheWork(run, n, m);
    }
  }

  lemma NeverUnheard(run: Run, r: Request, more: Run, n: nat, m: nat)
    requires Continues(run, r, more) && Creates(Last(run), r) && !Last(run).phase.Stopping?
    ensures !SendsAfterCancel(more, n, m, Last(run).supply)
  {
    ContinuesTimely(run, r, more, false);
    TimelyNeverUnheard(more, n, m, Last(run).supply);
  }

  /**
   A request for the task can leave after the caller's cancel, without a reload, if and only if the submission is
   accepted while a stop waits.
   */
  lemma SentAfterCancelIffStopping(run: Run, r: Request)
    requires IsRun(run) && Creates(Last(run), r)
    ensures Last(run).phase.Stopping?
      <==> exists more: Run, n: nat, m: nat :: Continues(run, r, more) && Unreloaded(run, more) && SendsAfterCancel(more, n, m, Last(run).supply)
    ensures !Last(run).phase.Stopping? ==> forall more: Run, n: nat, m: nat :: Continues(run, r, more) ==>
      !SendsAfterCancel(more, n, m, Last(run).supply)
  {
    if Last(run).phase.Stopping? {
      var more, n, m := Unheard(run, r);
    } else {
      forall more: Run, n: nat, m: nat | Continues(run, r, more)
        ensures !SendsAfterCancel(more, n, m, Last(run).supply) {
        NeverUnheard(run, r, more, n, m);
      }
    }
  }

  // ----- Two coroutines, and one that its record does not answer to -----

  lemma TwinsOf(run: Run, r: Request) returns (more: Run)
    requires IsRun(run) && Creates(Last(run), r) && Last(run).phase.Stopping?
    ensures Continues(run, r, more) && Unreloaded(run, more) && !OneRunner(Last(more).runners, Last(run).supply)
  {
    var idle := IdleNewcomer(run, r);
    var p := TwinStarts(Last(idle), Last(run).supply);
    more := Extend(run, r, idle, p);
  }

  lemma OrderlyNeverTwins(run: Run, id: TaskId)
    requires OrderlyFor(run, id, false)
    ensures OneRunner(Last(run).runners, id)
  {
    forall g, h | g in Last(run).runners && h in Last(run).runners && g.taskId == h.taskId == id ensures g == h {
      OneCoroutine(run, |run.labels|, g, h);
    }
  }

  lemma NeverTwins(run: Run, r: Request, more: Run)
    requires Continues(run, r, more) && Creates(Last(run), r) && !Last(run).phase.Stopping?
    ensures OneRunner(Last(more).runners, Last(run).supply)
  {
    OrderlyThroughout(run, r, more, Last(run).supply, false);
    OrderlyNeverTwins(more, Last(run).supply);
  }

  /**
   The task can get two live coroutines, without a reload, if and only if the submission is accepted while a stop waits.
   */
  lemma TwoCoroutinesIffStopping(run: Run, r: Request)
    requires IsRun(run) && Creates(Last(run), r)
    ensures Last(run).phase.Stopping?
      <==> exists more: Run :: Continues(run, r, more) && Unreloaded(run, more) && !OneRunner(Last(more).runners, Last(run).supply)
    ensures !Last(run).phase.Stopping? ==> forall more: Run :: Continues(run, r, more) ==>
      OneRunner(Last(more).runners, Last(run).supply)
  {
    if Last(run).phase.Stopping? {
      var more := TwinsOf(run, r);
    } else {
      forall more: Run | Continues(run, r, more) ensures OneRunner(Last(more).runners, Last(run).supply) {
        NeverTwins(run, r, more);
      }
    }
  }

  /** A coroutine of the task is in the worker call, and the open record is not the one that it works on. */
  ghost predicate Disagrees(s: State, id: TaskId) {
    Open(s, id) && exists h :: Carries(s.runners, id, h) && s.runners[h].pc.task != s.table[id]
  }

  lemma AtWorkDisagrees(s: State, id: TaskId)
    requires Sane(s) && AtWork(s, id, false, Recovering)
    ensures Disagrees(s, id)
  {
    OwnRecords(s, id);
    RecoveringIsOpen(s, id);
    assert Carries(s.runners, id, Handle(id, id));
  }

  lemma Disagreeing(run: Run, r: Request) returns (more: Run)
    requires IsRun(run) && Creates(Last(run), r) && Last(run).phase != Serving
    ensures Continues(run, r, more) && Unreloaded(run, more) && Disagrees(Last(more), Last(run).supply)
  {
    var idle := IdleNewcomer(run, r);
    var p := Begins(Last(idle), Last(run).supply);
    more := Extend(run, r, idle, p);
    p := Overtaken(Last(more), Last(run).supply);
    more := Extend(run, r, more, p);
    AtWorkDisagrees(Last(more), Last(run).supply);
  }

  lemma OrderlyNeverDisagrees(run: Run, id: TaskId)
    requires OrderlyFor(run, id, true)
    ensures !Disagrees(Last(run), id)
  {
    forall h | Open(Last(run), id) && Carries(Last(run).runners, id, h)
      ensures Last(run).runners[h].pc.task == Last(run).table[id]
    {
      RunnerRecordAgreement(run, |run.labels|, h);
    }
  }

  lemma NeverDisagrees(run: Run, r: Request, more: Run)
    requires Continues(run, r, more) && Creates(Last(run), r) && Last(run).phase == Serving
    ensures !Disagrees(Last(more), Last(run).supply)
  {
    OrderlyThroughout(run, r, more, Last(run).supply, true);
    OrderlyNeverDisagrees(more, Last(run).supply);
  }

  /**
   A coroutine of the task in the worker call can face an open record that is not its own, without a reload, if and only
   if the submission is accepted while the manager is not serving.
   */
  lemma DisagreesIffNotServing(run: Run, r: Request)
    requires IsRun(run) && Creates(Last(run), r)
    ensures Last(run).phase != Serving
      <==> exists more: Run :: Continues(run, r, more) && Unreloaded(run, more) && Disagrees(Last(more), Last(run).supply)
    ensures Last(run).phase == Serving ==> forall more: Run :: Continues(run, r, more) ==>
      !Disagrees(Last(more), Last(run).supply)
  {
    if Last(run).phase == Serving {
      forall more: Run | Continues(run, r, more) ensures !Disagrees(Last(more), Last(run).supply) {
        NeverDisagrees(run, r, more);
      }
    } else {
      var more := Disagreeing(run, r);
    }
  }

  // ----- A stop always can return -----

  /** A longer run. */
  ghost predicate Prolongs(run: Run, more: Run) {
    && IsRun(run) && IsRun(more) && |run.labels| <= |more.labels|
    && run.states == more.states[..|run.states|] && run.labels == more.labels[..|run.labels|]
  }

  lemma GoesOn(run: Run, p: Run) returns (more: Run)
    requires IsRun(run) && PathFrom(Last(run), p)
    ensures Prolongs(run, more) && Last(more) == Last(p) && more.labels == run.labels + p.labels
      && more.states == run.states[..|run.labels|] + p.states
  {
    more := Join(run.states[0], run, p);
    assert run.states == more.states[..|run.states|];
  }

  /**
   From every reachable state in which a stop waits, it can return without a reply from any worker: each coroutine it
   waits for ends before it has begun, or interrupted where it is.
   */
  lemma StopCanReturn(run: Run) returns (more: Run)
    requires IsRun(run) && Last(run).phase.Stopping?
    ensures Prolongs(run, more) && |run.labels| < |more.labels| && StopReturns(more, |more.labels| - 1)
    ensures OnlyEndings(more.labels[|run.labels|..|more.labels| - 1])
  {
    LastSane(run);
    var p := DrainAll(Last(run));
    var q := Take(Last(p), StopEndStep);
    var all := Join(Last(run), p, q);
    more := GoesOn(run, all);
    assert more.labels[|run.labels|..|more.labels| - 1] == p.labels;
  }

  // ----- The capacity bound needs a start -----

  /**
   From every reachable idle state an accepted submission can be followed, with the configuration left alone, by as
   many open records as one likes: nothing counts the Running rows that a crash leaves before the next start.
   */
  lemma IdleBreaksCapacity(run: Run, r: Request, n: nat) returns (more: Run)
    requires IsRun(run) && Creates(Last(run), r) && Last(run).phase == Idle
      && Last(run).config.limits.perWorkerActiveTasks == None
    ensures Continues(run, r, more) && Unreloaded(run, more) && |OpenIds(Last(more).table)| >= n
  {
    LastSane(run);
    var p := Rounds(Last(run), r, n);
    more := GoOn(run, r, p);
  }
}
