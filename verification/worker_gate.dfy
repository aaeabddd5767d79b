/**
 The gate in front of one worker (ai_bridge/workers.py:47-48, 173-237): a semaphore, an active
 count and the circuit breaker, under every interleaving of calls that succeed, fail or are
 cancelled, while waiting for the semaphore or in flight. The semaphore is asyncio's: a call that
 finds a permit free and nobody in line takes it at once, and the others are served in line.
 */
module Gates {
  import opened Breaker

  type CallId = nat

  /**
   A call that passed `assert_available`, before and after it has taken a permit. `seen` is how much history it was
   admitted on.
   */
  datatype CallPc = Waiting(admittedAt: real, seen: nat) | InFlight(admittedAt: real, seen: nat)

  /**
   `line` holds the waiting calls in their order; `taken` counts permits taken; `observed`, `failures` and `openings`
   count what this gate
   reported to the metrics; `history` is its successes and failures in order.
   */
  datatype Gate = Gate(
    maxConcurrent: nat,
    config: BreakerConfig,
    permits: nat,
    line: seq<CallId>,
    active: nat,
    circuit: CircuitState,
    calls: map<CallId, CallPc>,
    taken: nat,
    observed: nat,
    failures: nat,
    openings: nat,
    history: seq<Event>)

  ghost predicate NewGate(g: Gate) {
    ConfigOk(g.config) && g.permits == g.maxConcurrent && g.line == [] && g.active == 0 && g.circuit == CLOSED
      && g.calls == map[]
    && g.taken == 0 && g.observed == 0 && g.failures == 0 && g.openings == 0 && g.history == []
  }

  /** How a call in flight ends. An answer that cannot be normalised has already been recorded as a success. */
  datatype Ending =
    | Answered
    | Unreadable(checked: real, armed: real)
    | Errored(checked: real, armed: real)
    | CancelledInFlight

  datatype Step =
    | Enter(id: CallId, now: real)
    | Acquire(id: CallId)
    | End(id: CallId, ending: Ending)
    | Abandon(id: CallId)

  predicate EndingTimed(ending: Ending) {
    match ending
    case Unreadable(checked, armed) => 0.0 <= checked <= armed
    case Errored(checked, armed) => 0.0 <= checked <= armed
    case _ => true
  }

  predicate Waits(g: Gate, id: CallId) {
    id in g.calls && g.calls[id].Waiting?
  }

  predicate CanStep(g: Gate, step: Step) {
    match step
    case Enter(id, now) => id !in g.calls && now >= 0.0
    case Acquire(id) => Waits(g, id) && g.line != [] && g.line[0] == id && g.permits > 0
    case End(id, ending) => id in g.calls && g.calls[id].InFlight? && EndingTimed(ending)
    case Abandon(id) => Waits(g, id)
  }

  function Succeed(g: Gate): Gate {
    g.(circuit := CLOSED, history := g.history + [Success])
  }

  function Fail(g: Gate, checked: real, armed: real): Gate {
    g.(circuit := AfterFailure(g.circuit, g.config, armed),
       failures := g.failures + 1,
       openings := g.openings + (if CountsOpening(g.circuit, g.config, checked) then 1 else 0),
       history := g.history + [Failure(checked, armed)])
  }

  function Record(g: Gate, ending: Ending): Gate {
    match ending
    case Answered => Succeed(g)
    case Unreadable(checked, armed) => Fail(Succeed(g), checked, armed)
    case Errored(checked, armed) => Fail(g, checked, armed)
    case CancelledInFlight => g
  }

  /** The semaphore's fast path: a free permit, and nobody in line. */
  predicate GoesThrough(g: Gate) {
    g.permits > 0 && g.line == []
  }

  function Queued(g: Gate, id: CallId, now: real): Gate {
    g.(calls := g.calls[id := Waiting(now, |g.history|)], line := g.line + [id])
  }

  function DoAcquire(g: Gate, id: CallId): Gate
    requires id in g.calls && g.permits > 0 && g.line != []
  {
    g.(permits := g.permits - 1, active := g.active + 1, taken := g.taken + 1, line := g.line[1..],
       calls := g.calls[id := InFlight(g.calls[id].admittedAt, g.calls[id].seen)])
  }

  /**
   Admission, up to the first wait: refused, leaving no trace, while the circuit is open; else through the semaphore or
   into its line.
   */
  function DoEnter(g: Gate, id: CallId, now: real): Gate {
    if Refuses(g.circuit, now) then g
    else if GoesThrough(g) then DoAcquire(Queued(g, id, now), id)
    else Queued(g, id, now)
  }

  /** The `finally` of the call, then the semaphore's release. */
  function Unwound(g: Gate, id: CallId): Gate
    requires g.active > 0
  {
    g.(active := g.active - 1, observed := g.observed + 1, permits := g.permits + 1, calls := g.calls - {id})
  }

  function DoEnd(g: Gate, id: CallId, ending: Ending): Gate
    requires g.active > 0
  {
    Unwound(Record(g, ending), id)
  }

  function Without(line: seq<CallId>, id: CallId): seq<CallId> {
    if line == [] then [] else if line[0] == id then line[1..] else [line[0]] + Without(line[1..], id)
  }

  function DoAbandon(g: Gate, id: CallId): Gate {
    g.(calls := g.calls - {id}, line := Without(g.line, id))
  }

  // ----- The invariant -----

  /** How many calls stand before this one in line; the length of the line for one that is not in it. */
  function Position(line: seq<CallId>, id: CallId): nat {
    if line == [] || line[0] == id then 0 else 1 + Position(line[1..], id)
  }

  function InFlightIds(g: Gate): set<CallId> {
    set id | id in g.calls && g.calls[id].InFlight?
  }

  ghost predicate CallsOk(calls: map<CallId, CallPc>, config: BreakerConfig, history: seq<Event>) {
    forall id :: id in calls ==>
      calls[id].seen <= |history| && calls[id].admittedAt >= 0.0
        && !OpenAt(history[..calls[id].seen], config, calls[id].admittedAt)
  }

  ghost predicate BreakerOk(g: Gate) {
    && ConfigOk(g.config) && Timed(g.history)
    && g.circuit == Circuit(g.history, g.config)
    && g.openings == Openings(g.history, g.config)
  }

  /** The active count is the number of calls in flight. */
  ghost predicate Counted(g: Gate) {
    g.active == |InFlightIds(g)|
  }

  ghost predicate Distinct(line: seq<CallId>) {
    forall i, j :: 0 <= i < j < |line| ==> line[i] != line[j]
  }

  /** The line holds each waiting call once. */
  ghost predicate Lined(line: seq<CallId>, calls: map<CallId, CallPc>) {
    Distinct(line) && forall id :: id in line <==> id in calls && calls[id].Waiting?
  }

  lemma InFlightIsCounted(g: Gate, id: CallId)
    requires Counted(g) && id in g.calls && g.calls[id].InFlight?
    ensures g.active > 0
  {
    assert id in InFlightIds(g);
  }

  ghost predicate GateInv(g: Gate) {
    match g
    case Gate(maxConcurrent, config, permits, line, active, _, calls, taken, observed, failures, _, history) =>
      && permits + active == maxConcurrent
      && Counted(g) && Lined(line, calls)
      && taken == observed + active
      && failures <= observed
      && BreakerOk(g)
      && CallsOk(calls, config, history)
  }

  lemma NewGateInv(g: Gate)
    requires NewGate(g)
    ensures GateInv(g)
  {
    assert InFlightIds(g) == {};
  }

  lemma AppendEvent(history: seq<Event>, event: Event, config: BreakerConfig)
    ensures Front(history + [event]) == history && Last(history + [event]) == event
    ensures Circuit(history + [event], config) ==
      if event.Success? then CLOSED else AfterFailure(Circuit(history, config), config, event.armed)
    ensures Openings(history + [event], config) == Openings(history, config)
      + (if event.Failure? && CountsOpening(Circuit(history, config), config, event.checked) then 1 else 0)
  {
  }

  lemma SucceedOk(g: Gate)
    requires BreakerOk(g)
    ensures BreakerOk(Succeed(g))
  {
    AppendEvent(g.history, Success, g.config);
  }

  lemma FailOk(g: Gate, checked: real, armed: real)
    requires BreakerOk(g) && 0.0 <= checked <= armed
    ensures BreakerOk(Fail(g, checked, armed))
  {
    AppendEvent(g.history, Failure(checked, armed), g.config);
  }

  lemma RecordOk(g: Gate, ending: Ending)
    requires BreakerOk(g) && EndingTimed(ending)
    ensures BreakerOk(Record(g, ending))
    ensures g.history <= Record(g, ending).history
    ensures Record(g, ending).failures <= g.failures + 1
    ensures Record(g, ending).failures == g.failures + 1 <==> ending.Unreadable? || ending.Errored?
  {
    match ending {
      case Answered => SucceedOk(g);
      case Unreadable(checked, armed) =>
        SucceedOk(g);
        FailOk(Succeed(g), checked, armed);
      case Errored(checked, armed) => FailOk(g, checked, armed);
      case CancelledInFlight =>
    }
  }

  lemma CallsGrow(calls: map<CallId, CallPc>, calls': map<CallId, CallPc>, config: BreakerConfig, history: seq<Event>,
                  history': seq<Event>)
    requires CallsOk(calls, config, history) && history <= history'
    requires forall id :: id in calls' ==>
      id in calls && calls'[id].seen == calls[id].seen && calls'[id].admittedAt == calls[id].admittedAt
    ensures CallsOk(calls', config, history')
  {
    forall id | id in calls' ensures history'[..calls[id].seen] == history[..calls[id].seen] {
    }
  }

  lemma QueuedLined(line: seq<CallId>, calls: map<CallId, CallPc>, id: CallId, pc: CallPc)
    requires Lined(line, calls) && id !in calls && pc.Waiting?
    ensures Lined(line + [id], calls[id := pc])
  {
    assert forall x :: x in line + [id] <==> x in line || x == id;
  }

  lemma QueuedInv(g: Gate, id: CallId, now: real)
    requires GateInv(g) && id !in g.calls && now >= 0.0 && !OpenAt(g.history, g.config, now)
    ensures GateInv(Queued(g, id, now))
  {
    assert g.history[..|g.history|] == g.history;
    assert InFlightIds(Queued(g, id, now)) == InFlightIds(g);
    QueuedLined(g.line, g.calls, id, Waiting(now, |g.history|));
  }

  lemma ServedLined(line: seq<CallId>, calls: map<CallId, CallPc>, pc: CallPc)
    requires Lined(line, calls) && line != [] && pc.InFlight?
    ensures Lined(line[1..], calls[line[0] := pc])
  {
    assert forall x :: x in line <==> x == line[0] || x in line[1..];
    assert line[0] !in line[1..];
  }

  lemma AcquireInv(g: Gate, id: CallId)
    requires GateInv(g) && CanStep(g, Acquire(id))
    ensures GateInv(DoAcquire(g, id))
  {
    var g' := DoAcquire(g, id);
    assert InFlightIds(g') == InFlightIds(g) + {id};
    ServedLined(g.line, g.calls, g'.calls[id]);
    CallsGrow(g.calls, g'.calls, g.config, g.history, g.history);
  }

  lemma EnterInv(g: Gate, id: CallId, now: real)
    requires GateInv(g) && CanStep(g, Enter(id, now))
    ensures GateInv(DoEnter(g, id, now))
    ensures id in DoEnter(g, id, now).calls <==> !OpenAt(g.history, g.config, now)
  {
    BreakerRefinesHistory(g.history, g.config, now);
    if !OpenAt(g.history, g.config, now) {
      QueuedInv(g, id, now);
      if GoesThrough(g) {
        AcquireInv(Queued(g, id, now), id);
      }
    }
  }

  lemma EndInv(g: Gate, id: CallId, ending: Ending)
    requires GateInv(g) && CanStep(g, End(id, ending))
    ensures g.active > 0 && GateInv(DoEnd(g, id, ending))
  {
    InFlightIsCounted(g, id);
    var g' := DoEnd(g, id, ending);
    RecordOk(g, ending);
    assert InFlightIds(g') == InFlightIds(g) - {id};
    CallsGrow(g.calls, g'.calls, g.config, g.history, g'.history);
  }

  /** Leaving the line keeps the others in it, each at its place or one nearer. */
  lemma {:induction false} WithoutIs(line: seq<CallId>, id: CallId)
    requires Distinct(line)
    ensures Distinct(Without(line, id)) && forall x :: x in Without(line, id) <==> x in line && x != id
    ensures forall x :: x in line && x != id ==> Position(Without(line, id), x) <= Position(line, x)
  {
    if line != [] {
      var rest := line[1..];
      assert forall x :: x in line <==> x == line[0] || x in rest;
      assert line[0] !in rest;
      if line[0] != id {
        WithoutIs(rest, id);
        assert Without(line, id)[1..] == Without(rest, id);
        assert forall x :: x in Without(line, id) <==> x == line[0] || x in Without(rest, id);
      }
    }
  }

  lemma AbandonInv(g: Gate, id: CallId)
    requires GateInv(g) && CanStep(g, Abandon(id))
    ensures GateInv(DoAbandon(g, id))
  {
    var g' := DoAbandon(g, id);
    assert InFlightIds(g') == InFlightIds(g);
    WithoutIs(g.line, id);
    CallsGrow(g.calls, g'.calls, g.config, g.history, g.history);
  }

  ghost predicate Steps(g: Gate, step: Step, g': Gate) {
    CanStep(g, step)
    && match step
       case Enter(id, now) => g' == DoEnter(g, id, now)
       case Acquire(id) => g' == DoAcquire(g, id)
       case End(id, ending) => g.active > 0 && g' == DoEnd(g, id, ending)
       case Abandon(id) => g' == DoAbandon(g, id)
  }

  lemma StepKeepsInv(g: Gate, step: Step, g': Gate)
    requires GateInv(g) && Steps(g, step, g')
    ensures GateInv(g') && g'.maxConcurrent == g.maxConcurrent && g'.config == g.config
  {
    match step {
      case Enter(id, now) => EnterInv(g, id, now);
      case Acquire(id) => AcquireInv(g, id);
      case End(id, ending) => EndInv(g, id, ending);
      case Abandon(id) => AbandonInv(g, id);
    }
  }

  // ----- Over every interleaving -----

  ghost predicate GatePath(states: seq<Gate>, steps: seq<Step>) {
    |states| == |steps| + 1 && forall i :: 0 <= i < |steps| ==> Steps(states[i], steps[i], states[i + 1])
  }

  ghost predicate GateRun(states: seq<Gate>, steps: seq<Step>) {
    GatePath(states, steps) && NewGate(states[0])
  }

  lemma {:induction false} PathInv(states: seq<Gate>, steps: seq<Step>, n: nat)
    requires GatePath(states, steps) && GateInv(states[0]) && n < |states|
    ensures GateInv(states[n]) && states[n].config == states[0].config
  {
    if n > 0 {
      PathInv(states, steps, n - 1);
      assert Steps(states[n - 1], steps[n - 1], states[n]);
      StepKeepsInv(states[n - 1], steps[n - 1], states[n]);
    }
  }

  lemma GateRunInv(states: seq<Gate>, steps: seq<Step>, n: nat)
    requires GateRun(states, steps) && n < |states|
    ensures GateInv(states[n])
  {
    NewGateInv(states[0]);
    PathInv(states, steps, n);
  }

  // ----- What the calls did -----

  /** What a step tells the breaker, by its label alone. */
  function Told(step: Step): seq<Event> {
    match step
    case End(_, Answered) => [Success]
    case End(_, Unreadable(checked, armed)) => [Success, Failure(checked, armed)]
    case End(_, Errored(checked, armed)) => [Failure(checked, armed)]
    case _ => []
  }

  /** The outcomes of these steps, in their order. */
  function Outcomes(steps: seq<Step>): seq<Event> {
    if steps == [] then [] else Outcomes(steps[..|steps| - 1]) + Told(steps[|steps| - 1])
  }

  /** How many of these steps end a call that was in flight; how many of them with a failure. */
  function Endings(steps: seq<Step>): nat {
    if steps == [] then 0 else Endings(steps[..|steps| - 1]) + (if steps[|steps| - 1].End? then 1 else 0)
  }

  predicate Fails(step: Step) {
    step.End? && (step.ending.Unreadable? || step.ending.Errored?)
  }

  function FailedEndings(steps: seq<Step>): nat {
    if steps == [] then 0
    else FailedEndings(steps[..|steps| - 1]) + (if Fails(steps[|steps| - 1]) then 1 else 0)
  }

  lemma StepTells(g: Gate, step: Step, g': Gate)
    requires Steps(g, step, g')
    ensures g'.history == g.history + Told(step)
    ensures g'.observed == g.observed + (if step.End? then 1 else 0)
    ensures g'.failures == g.failures + (if Fails(step) then 1 else 0)
  {
  }

  /**
   In every interleaving the gate's history is what its calls did, in the order of their ends: a success for an answer,
   a failure for an error, both for an answer that cannot be read, nothing for a cancellation. Each end is observed once.
   */
  lemma {:induction false} HistoryIsOutcomes(states: seq<Gate>, steps: seq<Step>, n: nat)
    requires GateRun(states, steps) && n < |states|
    ensures states[n].history == Outcomes(steps[..n])
    ensures states[n].observed == Endings(steps[..n]) && states[n].failures == FailedEndings(steps[..n])
  {
    if n > 0 {
      HistoryIsOutcomes(states, steps, n - 1);
      assert Steps(states[n - 1], steps[n - 1], states[n]);
      StepTells(states[n - 1], steps[n - 1], states[n]);
      assert steps[..n][..n - 1] == steps[..n - 1] && steps[..n][n - 1] == steps[n - 1];
    }
  }

  /**
   In every interleaving: active calls and free permits add up to the configured maximum, the active
   count is the number of calls in flight, every call that took a permit is in flight or has ended and
   been observed exactly once, and failures are the endings that failed.
   */
  lemma GateConservation(states: seq<Gate>, steps: seq<Step>, n: nat)
    requires GateRun(states, steps) && n < |states|
    ensures var g := states[n];
      && g.permits + g.active == g.maxConcurrent && g.active == |InFlightIds(g)| <= g.maxConcurrent
      && g.taken == g.observed + g.active && g.observed == Endings(steps[..n])
      && g.failures == FailedEndings(steps[..n]) <= g.observed
  {
    GateRunInv(states, steps, n);
    HistoryIsOutcomes(states, steps, n);
  }

  /**
   In every interleaving a new call is admitted exactly when the outcomes of the calls before it say the breaker is
   closed, and openings are their closed-to-open events.
   */
  lemma GateBreaker(states: seq<Gate>, steps: seq<Step>, n: nat, id: CallId, now: real)
    requires GateRun(states, steps) && n < |states| && id !in states[n].calls && now >= 0.0
    ensures id in DoEnter(states[n], id, now).calls <==> !OpenAt(Outcomes(steps[..n]), states[n].config, now)
    ensures states[n].openings == |ClosedToOpen(Outcomes(steps[..n]), states[n].config)|
  {
    GateRunInv(states, steps, n);
    HistoryIsOutcomes(states, steps, n);
    EnterInv(states[n], id, now);
    OpeningsCountEvents(states[n].history, states[n].config);
  }

  /** Whatever is waiting or in flight came in by one step of its own, and was not refused there. */
  ghost predicate AdmittedBy(states: seq<Gate>, steps: seq<Step>, k: nat, id: CallId, call: CallPc)
    requires |states| == |steps| + 1
  {
    && k < |steps| && steps[k] == Enter(id, call.admittedAt) && call.seen == |states[k].history|
    && id !in states[k].calls && id in states[k + 1].calls
  }

  lemma StepAdmits(g: Gate, step: Step, g': Gate, id: CallId)
    requires Steps(g, step, g') && id in g'.calls
    ensures id in g.calls ==>
      g'.calls[id].admittedAt == g.calls[id].admittedAt && g'.calls[id].seen == g.calls[id].seen
    ensures id !in g.calls ==> step == Enter(id, g'.calls[id].admittedAt) && g'.calls[id].seen == |g.history|
  {
  }

  lemma {:induction false} AdmittedOnce(states: seq<Gate>, steps: seq<Step>, n: nat, id: CallId) returns (k: nat)
    requires GateRun(states, steps) && n < |states| && id in states[n].calls
    ensures k < n && AdmittedBy(states, steps, k, id, states[n].calls[id])
  {
    assert Steps(states[n - 1], steps[n - 1], states[n]);
    StepAdmits(states[n - 1], steps[n - 1], states[n], id);
    if id in states[n - 1].calls {
      k := AdmittedOnce(states, steps, n - 1, id);
    } else {
      k := n - 1;
    }
  }

  /** Whatever is waiting or in flight came in while the outcomes of the calls before it said the breaker was closed. */
  lemma AdmittedWhileClosed(states: seq<Gate>, steps: seq<Step>, n: nat, id: CallId) returns (k: nat)
    requires GateRun(states, steps) && n < |states| && id in states[n].calls
    ensures k < n && steps[k] == Enter(id, states[n].calls[id].admittedAt)
      && states[n].calls[id].seen == |Outcomes(steps[..k])|
    ensures !OpenAt(Outcomes(steps[..k]), states[n].config, states[n].calls[id].admittedAt)
  {
    k := AdmittedOnce(states, steps, n, id);
    assert Steps(states[k], steps[k], states[k + 1]);
    HistoryIsOutcomes(states, steps, k);
    GateBreaker(states, steps, k, id, steps[k].now);
    NewGateInv(states[0]);
    PathInv(states, steps, k);
    PathInv(states, steps, n);
  }

  // ----- When a call can send while the breaker is open -----

  /**
   A call that takes its permit before any further outcome is recorded sends while the breaker is closed, however long
   it has waited.
   */
  lemma UndisturbedSendsClosed(states: seq<Gate>, steps: seq<Step>, n: nat, id: CallId, now: real)
    requires GateRun(states, steps) && n < |states| && id in states[n].calls
    requires states[n].calls[id].seen == |states[n].history| && now >= states[n].calls[id].admittedAt
    ensures !OpenAt(states[n].history, states[n].config, now)
  {
    GateRunInv(states, steps, n);
    assert states[n].history[..|states[n].history|] == states[n].history;
  }

  /**
   The call has waited from the first state on, and in the last step it takes its permit while the breaker is open.
   */
  ghost predicate SendsOpen(states: seq<Gate>, steps: seq<Step>, id: CallId, now: real) {
    && GatePath(states, steps) && steps != [] && steps[|steps| - 1] == Acquire(id)
    && (forall i :: 0 <= i < |steps| ==> Waits(states[i], id))
    && OpenAt(states[|steps| - 1].history, states[|steps| - 1].config, now)
  }

  /**
   The failures there can be in a row when this call is served: those there are, and one for each call in flight or
   before it in line.
   */
  function PossibleFailures(g: Gate, id: CallId): nat {
    FailuresSinceSuccess(g.history) + g.active + Position(g.line, id)
  }

  lemma {:induction false} PositionAppend(line: seq<CallId>, id: CallId, last: CallId)
    requires id in line
    ensures Position(line + [last], id) == Position(line, id)
  {
    if line[0] != id {
      assert (line + [last])[1..] == line[1..] + [last];
      PositionAppend(line[1..], id, last);
    }
  }

  lemma {:induction false} PositionLast(line: seq<CallId>, id: CallId)
    requires id !in line
    ensures Position(line + [id], id) == |line|
  {
    if line != [] {
      assert (line + [id])[1..] == line[1..] + [id];
      PositionLast(line[1..], id);
    }
  }

  lemma FailuresAppend(history: seq<Event>, event: Event)
    ensures FailuresSinceSuccess(history + [event]) == if event.Success? then 0 else 1 + FailuresSinceSuccess(history)
  {
    assert Front(history + [event]) == history && Last(history + [event]) == event;
  }

  /** An ending adds at most one failure to those in a row. */
  lemma RecordAddsOne(g: Gate, ending: Ending)
    ensures FailuresSinceSuccess(Record(g, ending).history) <= FailuresSinceSuccess(g.history) + 1
  {
    match ending {
      case Answered => FailuresAppend(g.history, Success);
      case Unreadable(checked, armed) =>
        FailuresAppend(g.history, Success);
        FailuresAppend(g.history + [Success], Failure(checked, armed));
      case Errored(checked, armed) => FailuresAppend(g.history, Failure(checked, armed));
      case CancelledInFlight =>
    }
  }

  /** Nothing overtakes a call in line, so nothing adds to the failures possible before its turn. */
  lemma PossibleNeverGrows(g: Gate, step: Step, g': Gate, id: CallId)
    requires Lined(g.line, g.calls) && Steps(g, step, g') && Waits(g, id) && Waits(g', id)
    ensures PossibleFailures(g', id) <= PossibleFailures(g, id)
  {
    match step {
      case Enter(other, now) => PositionAppend(g.line, id, other);
      case Acquire(other) =>
      case End(other, ending) => RecordAddsOne(g, ending);
      case Abandon(other) => WithoutIs(g.line, other);
    }
  }

  lemma {:induction false} PossibleAlong(states: seq<Gate>, steps: seq<Step>, n: nat, id: CallId)
    requires GatePath(states, steps) && GateInv(states[0]) && n < |states| && forall i :: 0 <= i <= n ==>
      Waits(states[i], id)
    ensures PossibleFailures(states[n], id) <= PossibleFailures(states[0], id)
  {
    if n > 0 {
      PossibleAlong(states, steps, n - 1, id);
      PathInv(states, steps, n - 1);
      PossibleNeverGrows(states[n - 1], steps[n - 1], states[n], id);
    }
  }

  lemma OpenNeedsFailures(states: seq<Gate>, steps: seq<Step>, id: CallId, now: real)
    requires SendsOpen(states, steps, id, now) && GateInv(states[0])
    ensures PossibleFailures(states[0], id) >= states[0].config.failureThreshold
  {
    PossibleAlong(states, steps, |steps| - 1, id);
    PathInv(states, steps, |steps| - 1);
  }

  lemma StepFirst(g: Gate, step: Step, states: seq<Gate>, steps: seq<Step>, id: CallId, now: real)
    requires SendsOpen(states, steps, id, now) && Steps(g, step, states[0]) && Waits(g, id)
    ensures SendsOpen([g] + states, [step] + steps, id, now)
  {
    var more, all := [g] + states, [step] + steps;
    forall i | 0 <= i < |all| ensures Steps(more[i], all[i], more[i + 1]) && Waits(more[i], id) {
      if i > 0 {
        assert Steps(states[i - 1], steps[i - 1], states[i]) && Waits(states[i - 1], id);
      }
    }
    assert more[|all| - 1] == states[|steps| - 1];
  }

  /** A call in flight fails: the failures possible before this call's turn stay what they were. */
  lemma OneFails(g: Gate, id: CallId, now: real) returns (failing: CallId)
    requires GateInv(g) && Waits(g, id) && g.active > 0 && now >= 0.0
    ensures CanStep(g, End(failing, Errored(now, now)))
    ensures var g' := DoEnd(g, failing, Errored(now, now));
      && GateInv(g') && Waits(g', id) && g'.config == g.config && g'.maxConcurrent == g.maxConcurrent
      && g'.active == g.active - 1 && g'.line == g.line && PossibleFailures(g', id) == PossibleFailures(g, id)
      && (FailuresSinceSuccess(g'.history) >= g.config.failureThreshold ==> OpenAt(g'.history, g.config, now))
  {
    assert InFlightIds(g) != {};
    failing :| failing in InFlightIds(g);
    EndInv(g, failing, Errored(now, now));
    FailuresAppend(g.history, Failure(now, now));
  }

  /** With nothing in flight the next in line takes a permit. */
  lemma OneServed(g: Gate, id: CallId) returns (served: CallId)
    requires GateInv(g) && Waits(g, id) && g.active == 0 && g.maxConcurrent >= 1
    ensures g.line != [] && served == g.line[0] && CanStep(g, Acquire(served))
    ensures served == id <==> Position(g.line, id) == 0
    ensures served != id ==>
      var g' := DoAcquire(g, served);
      && GateInv(g') && Waits(g', id) && g'.config == g.config && g'.maxConcurrent == g.maxConcurrent
        && g'.history == g.history
      && g'.active == 1 && Position(g'.line, id) == Position(g.line, id) - 1
  {
    assert id in g.line;
    served := g.line[0];
    AcquireInv(g, served);
  }

  /** When there can be enough failures, everything before the call may fail in turn, and then its own turn comes. */
  lemma {:induction false} AllAheadFail(g: Gate, id: CallId, now: real) returns (states: seq<Gate>, steps: seq<Step>)
    requires GateInv(g) && g.maxConcurrent >= 1 && Waits(g, id) && now >= 0.0
    requires PossibleFailures(g, id) >= g.config.failureThreshold
    requires g.active + Position(g.line, id) > 0 || OpenAt(g.history, g.config, now)
    ensures SendsOpen(states, steps, id, now) && states[0] == g
    decreases 2 * Position(g.line, id) + g.active
  {
    if g.active > 0 {
      var failing := OneFails(g, id, now);
      states, steps := AllAheadFail(DoEnd(g, failing, Errored(now, now)), id, now);
      StepFirst(g, End(failing, Errored(now, now)), states, steps, id, now);
      states, steps := [g] + states, [End(failing, Errored(now, now))] + steps;
    } else {
      var served := OneServed(g, id);
      if served == id {
        states, steps := [g, DoAcquire(g, id)], [Acquire(id)];
      } else {
        states, steps := AllAheadFail(DoAcquire(g, served), id, now);
        StepFirst(g, Acquire(served), states, steps, id, now);
        states, steps := [g] + states, [Acquire(served)] + steps;
      }
    }
  }

  /** Some continuation from the call's admission on in which it sends while the breaker is open. */
  ghost predicate CanSendOpen(g: Gate, id: CallId, now: real) {
    exists states: seq<Gate>, steps: seq<Step>, later: real ::
      later >= now && states != [] && states[0] == DoEnter(g, id, now) && SendsOpen(states, steps, id, later)
  }

  /**
   The breaker is read before the wait for the semaphore, not after it. From every state of every
   interleaving, an admitted call can send while the breaker is open if and only if it has to wait and
   the failures so far, the calls in flight and the calls in line together reach the threshold.
   */
  lemma SendsOpenExactly(g: Gate, id: CallId, now: real)
    requires GateInv(g) && g.maxConcurrent >= 1 && id !in g.calls && now >= 0.0 && !OpenAt(g.history, g.config, now)
    ensures CanSendOpen(g, id, now)
      <==> !GoesThrough(g) && g.circuit.failures + g.active + |g.line| >= g.config.failureThreshold
  {
    BreakerRefinesHistory(g.history, g.config, now);
    CircuitFields(g.history, g.config);
    EnterInv(g, id, now);
    PositionLast(g.line, id);
    var g' := DoEnter(g, id, now);
    forall states: seq<Gate>, steps: seq<Step>, later: real | states != [] && states[0] == g'
      && SendsOpen(states, steps, id, later)
      ensures !GoesThrough(g) && g.circuit.failures + g.active + |g.line| >= g.config.failureThreshold
    {
      assert Waits(states[0], id);
      OpenNeedsFailures(states, steps, id, later);
    }
    if !GoesThrough(g) && g.circuit.failures + g.active + |g.line| >= g.config.failureThreshold {
      var states, steps := AllAheadFail(g', id, now);
    }
  }
}

/** The registry object: per-worker dictionaries changed in place, each method one step of that worker's gate. */
module Registries {
  import opened TaskStates
  import opened Counting
  import opened Metrics
  import opened Breaker
  import opened Gates

  /** asyncio's semaphore: its free permits and the calls in its line. */
  datatype Semaphore = Semaphore(value: nat, waiters: seq<CallId>)

  predicate Open(semaphore: Semaphore) {
    semaphore.value > 0 && semaphore.waiters == []
  }

  /** The semaphore after one more call has come: one permit less, or one more in line. */
  function KnockedAt(semaphore: Semaphore, id: CallId): Semaphore {
    if Open(semaphore) then Semaphore(semaphore.value - 1, []) else Semaphore(semaphore.value, semaphore.waiters + [id])
  }

  datatype Rejection = UnknownWorker | CircuitOpen

  /** How a call leaves its first step: turned away, with a permit, or in line for one. */
  datatype Entry = Rejected(rejection: Rejection) | Through | InLine

  /** The registry's dictionaries. */
  datatype Books = Books(circuits: map<WorkerId, CircuitState>, semaphores: map<WorkerId, Semaphore>,
    active: map<WorkerId, nat>)

  /** They have an entry for the worker, and it holds the circuit, the semaphore and the active count of this gate. */
  ghost predicate EntryOf(books: Books, worker: WorkerId, g: Gate) {
    && worker in books.circuits && books.circuits[worker] == g.circuit
    && worker in books.semaphores && books.semaphores[worker] == Semaphore(g.permits, g.line)
    && worker in books.active && books.active[worker] == g.active
  }

  ghost predicate Holds(gates: map<WorkerId, Gate>, books: Books) {
    books.circuits.Keys == books.semaphores.Keys == books.active.Keys == gates.Keys
    && forall w {:trigger EntryOf(books, w, gates[w])} :: w in gates ==> EntryOf(books, w, gates[w])
  }

  /** The worker's limit and the common breaker configuration. */
  ghost predicate ConfiguredAt(g: Gate, limits: map<WorkerId, nat>, breaker: BreakerConfig, worker: WorkerId) {
    worker in limits && g.maxConcurrent == limits[worker] && g.config == breaker
  }

  /** One gate for each worker. */
  ghost predicate Configured(gates: map<WorkerId, Gate>, limits: map<WorkerId, nat>, breaker: BreakerConfig) {
    gates.Keys == limits.Keys
    && forall w {:trigger ConfiguredAt(gates[w], limits, breaker, w)} :: w in gates ==>
      ConfiguredAt(gates[w], limits, breaker, w)
  }

  /** Every gate keeps its invariant. */
  ghost predicate Sound(gates: map<WorkerId, Gate>) {
    forall w {:trigger GateInv(gates[w])} :: w in gates ==> GateInv(gates[w])
  }

  ghost predicate Booked(gates: map<WorkerId, Gate>, books: Books, limits: map<WorkerId, nat>, breaker: BreakerConfig) {
    match books
    case Books(_, _, _) => Holds(gates, books) && Configured(gates, limits, breaker) && Sound(gates)
  }

  /** What the books say of one worker. */
  lemma BookedAt(gates: map<WorkerId, Gate>, books: Books, limits: map<WorkerId, nat>, breaker: BreakerConfig,
                 worker: WorkerId)
    requires Booked(gates, books, limits, breaker)
    ensures worker in gates <==> worker in limits
    ensures worker in gates <==> worker in books.circuits && worker in books.semaphores && worker in books.active
    ensures worker in gates ==>
      GateInv(gates[worker]) && EntryOf(books, worker, gates[worker])
      && ConfiguredAt(gates[worker], limits, breaker, worker)
  {
    assert worker in books.circuits.Keys <==> worker in gates.Keys;
    assert worker in books.semaphores.Keys <==> worker in books.active.Keys;
    assert worker in limits.Keys <==> worker in gates.Keys;
  }

  /** The worker's calls in flight and free permits add up to its limit. */
  ghost predicate BalancedAt(books: Books, limits: map<WorkerId, nat>, worker: WorkerId) {
    worker in limits && worker in books.active && worker in books.semaphores
    && books.active[worker] + books.semaphores[worker].value == limits[worker]
  }

  function Posted(books: Books, worker: WorkerId, g: Gate): Books {
    Books(books.circuits[worker := g.circuit], books.semaphores[worker := Semaphore(g.permits, g.line)],
      books.active[worker := g.active])
  }

  lemma MoveKeepsHolds(gates: map<WorkerId, Gate>, books: Books, worker: WorkerId, g: Gate)
    requires Holds(gates, books)
    ensures Holds(gates[worker := g], Posted(books, worker, g))
  {
    var gates', books' := gates[worker := g], Posted(books, worker, g);
    forall w | w in gates' ensures EntryOf(books', w, gates'[w]) {
      assert w != worker ==> EntryOf(books, w, gates[w]);
    }
  }

  lemma MoveKeepsConfigured(gates: map<WorkerId, Gate>, limits: map<WorkerId, nat>, breaker: BreakerConfig,
                            worker: WorkerId, g: Gate)
    requires Configured(gates, limits, breaker) && worker in gates && ConfiguredAt(g, limits, breaker, worker)
    ensures Configured(gates[worker := g], limits, breaker)
  {
    var gates' := gates[worker := g];
    forall w | w in gates' ensures ConfiguredAt(gates'[w], limits, breaker, w) {
      assert w != worker ==> ConfiguredAt(gates[w], limits, breaker, w);
    }
  }

  lemma MoveKeepsSound(gates: map<WorkerId, Gate>, worker: WorkerId, g: Gate)
    requires Sound(gates) && GateInv(g)
    ensures Sound(gates[worker := g])
  {
    var gates' := gates[worker := g];
    forall w | w in gates' ensures GateInv(gates'[w]) {
      assert w != worker ==> GateInv(gates[w]);
    }
  }

  /** Moving one gate to a sound one keeps the books and the invariant of every gate. */
  lemma MoveKeepsBooked(gates: map<WorkerId, Gate>, books: Books, limits: map<WorkerId, nat>, breaker: BreakerConfig,
                        worker: WorkerId, g: Gate)
    requires Booked(gates, books, limits, breaker) && worker in gates && GateInv(g)
    requires g.maxConcurrent == gates[worker].maxConcurrent && g.config == gates[worker].config
    ensures Booked(gates[worker := g], Posted(books, worker, g), limits, breaker)
    ensures BalancedAt(Posted(books, worker, g), limits, worker)
  {
    BookedAt(gates, books, limits, breaker, worker);
    MoveKeepsHolds(gates, books, worker, g);
    MoveKeepsConfigured(gates, limits, breaker, worker, g);
    MoveKeepsSound(gates, worker, g);
  }

  lemma SameEntry<K, V>(m: map<K, V>, key: K)
    requires key in m
    ensures m[key := m[key]] == m
  {
  }

  // ----- What an ending does to the circuit and the counters -----

  function CircuitAfter(circuit: CircuitState, breaker: BreakerConfig, ending: Ending): CircuitState {
    match ending
    case Answered => CLOSED
    case Unreadable(_, armed) => AfterFailure(CLOSED, breaker, armed)
    case Errored(_, armed) => AfterFailure(circuit, breaker, armed)
    case CancelledInFlight => circuit
  }

  /** Whether an ending opens a circuit that its failure found closed. */
  predicate OpensCircuit(circuit: CircuitState, breaker: BreakerConfig, ending: Ending) {
    match ending
    case Unreadable(checked, _) => CountsOpening(CLOSED, breaker, checked)
    case Errored(checked, _) => CountsOpening(circuit, breaker, checked)
    case _ => false
  }

  predicate CountsFailure(ending: Ending) {
    ending.Unreadable? || ending.Errored?
  }

  function BumpedIf(counts: map<WorkerId, nat>, worker: WorkerId, bumps: bool): map<WorkerId, nat> {
    if bumps then Bumped(counts, worker) else counts
  }

  lemma RecordedIs(g: Gate, ending: Ending)
    ensures Record(g, ending).permits == g.permits && Record(g, ending).line == g.line
      && Record(g, ending).active == g.active
    ensures Record(g, ending).circuit == CircuitAfter(g.circuit, g.config, ending)
    ensures Record(g, ending).failures == g.failures + (if CountsFailure(ending) then 1 else 0)
    ensures Record(g, ending).openings == g.openings + (if OpensCircuit(g.circuit, g.config, ending) then 1 else 0)
  {
  }

  // ----- A new registry, and a call at the semaphore -----

  function NewGateOf(limit: nat, breaker: BreakerConfig): Gate {
    Gate(limit, breaker, limit, [], 0, CLOSED, map[], 0, 0, 0, 0, [])
  }

  ghost predicate AllNew(gates: map<WorkerId, Gate>, limits: map<WorkerId, nat>, breaker: BreakerConfig) {
    forall w :: w in gates ==> w in limits && gates[w] == NewGateOf(limits[w], breaker)
  }

  lemma NewIsSound(gates: map<WorkerId, Gate>, limits: map<WorkerId, nat>, breaker: BreakerConfig)
    requires ConfigOk(breaker) && AllNew(gates, limits, breaker)
    ensures Sound(gates) && forall w :: w in gates ==>
      NewGate(gates[w]) && gates[w].maxConcurrent == limits[w] && gates[w].config == breaker
  {
    forall w | w in gates ensures GateInv(gates[w]) {
      NewGateInv(gates[w]);
    }
  }

  lemma StepKeepsBooked(gates: map<WorkerId, Gate>, books: Books, limits: map<WorkerId, nat>, breaker: BreakerConfig,
                        worker: WorkerId, step: Step, g: Gate)
    requires Booked(gates, books, limits, breaker) && worker in gates && Steps(gates[worker], step, g)
    ensures Booked(gates[worker := g], Posted(books, worker, g), limits, breaker)
      && BalancedAt(Posted(books, worker, g), limits, worker)
  {
    BookedAt(gates, books, limits, breaker, worker);
    StepKeepsInv(gates[worker], step, g);
    MoveKeepsBooked(gates, books, limits, breaker, worker, g);
  }

  /** The books after a call's first step: as they were when it is refused, else as the semaphore leaves them. */
  function EnteredBooks(books: Books, worker: WorkerId, id: CallId, now: real): Books
    requires worker in books.circuits && worker in books.semaphores && worker in books.active
  {
    if Refuses(books.circuits[worker], now) then books
    else Books(books.circuits, books.semaphores[worker := KnockedAt(books.semaphores[worker], id)],
               books.active[worker := if Open(books.semaphores[worker]) then books.active[worker] + 1
                 else books.active[worker]])
  }

  function EntryAt(circuit: CircuitState, semaphore: Semaphore, now: real): Entry {
    if Refuses(circuit, now) then Rejected(CircuitOpen) else if Open(semaphore) then Through else InLine
  }

  lemma EnteredIs(g: Gate, books: Books, worker: WorkerId, id: CallId, now: real)
    requires EntryOf(books, worker, g)
    ensures Posted(books, worker, DoEnter(g, id, now)) == EnteredBooks(books, worker, id, now)
    ensures GateInv(g) && now >= 0.0 ==>
      EntryAt(books.circuits[worker], books.semaphores[worker], now)
      == (if OpenAt(g.history, g.config, now) then Rejected(CircuitOpen) else if GoesThrough(g) then Through
        else InLine)
  {
    if GateInv(g) && now >= 0.0 {
      BreakerRefinesHistory(g.history, g.config, now);
    }
    SameEntry(books.circuits, worker);
    SameEntry(books.semaphores, worker);
    SameEntry(books.active, worker);
    assert GoesThrough(g) ==> (g.line + [id])[1..] == [];
  }

  lemma EnterBooked(gates: map<WorkerId, Gate>, books: Books, limits: map<WorkerId, nat>, breaker: BreakerConfig,
                    worker: WorkerId, id: CallId, now: real)
    requires Booked(gates, books, limits, breaker) && worker in gates && CanStep(gates[worker], Enter(id, now))
    ensures EntryOf(books, worker, gates[worker])
    ensures EntryAt(books.circuits[worker], books.semaphores[worker], now)
      == (if OpenAt(gates[worker].history, breaker, now) then Rejected(CircuitOpen) else if GoesThrough(gates[worker])
        then Through else InLine)
    ensures var books' := EnteredBooks(books, worker, id, now);
      Booked(gates[worker := DoEnter(gates[worker], id, now)], books', limits, breaker)
        && BalancedAt(books', limits, worker)
  {
    BookedAt(gates, books, limits, breaker, worker);
    EnteredIs(gates[worker], books, worker, id, now);
    StepKeepsBooked(gates, books, limits, breaker, worker, Enter(id, now), DoEnter(gates[worker], id, now));
  }

  /** The books after the first in line has been served. */
  function ServedBooks(books: Books, worker: WorkerId): Books
    requires worker in books.semaphores && worker in books.active && books.semaphores[worker].value > 0
      && books.semaphores[worker].waiters != []
  {
    var semaphore := books.semaphores[worker];
    Books(books.circuits, books.semaphores[worker := Semaphore(semaphore.value - 1, semaphore.waiters[1..])],
          books.active[worker := books.active[worker] + 1])
  }

  lemma ServedIs(g: Gate, books: Books, worker: WorkerId)
    requires GateInv(g) && EntryOf(books, worker, g) && g.line != [] && g.permits > 0
    ensures Waits(g, g.line[0]) && Posted(books, worker, DoAcquire(g, g.line[0])) == ServedBooks(books, worker)
  {
    assert g.line[0] in g.line;
    SameEntry(books.circuits, worker);
  }

  lemma ServeBooked(gates: map<WorkerId, Gate>, books: Books, limits: map<WorkerId, nat>, breaker: BreakerConfig,
                    worker: WorkerId)
    requires Booked(gates, books, limits, breaker) && worker in gates && gates[worker].line != []
      && gates[worker].permits > 0
    ensures EntryOf(books, worker, gates[worker]) && Waits(gates[worker], gates[worker].line[0])
    ensures var books' := ServedBooks(books, worker);
      Booked(gates[worker := DoAcquire(gates[worker], gates[worker].line[0])], books', limits, breaker)
        && BalancedAt(books', limits, worker)
  {
    BookedAt(gates, books, limits, breaker, worker);
    var g := gates[worker];
    ServedIs(g, books, worker);
    StepKeepsBooked(gates, books, limits, breaker, worker, Acquire(g.line[0]), DoAcquire(g, g.line[0]));
  }

  /** The books once a call in flight has ended: the circuit as recorded, one call less, one permit more. */
  function LeftBooks(books: Books, worker: WorkerId, breaker: BreakerConfig, ending: Ending): Books
    requires worker in books.circuits && worker in books.semaphores && worker in books.active
      && books.active[worker] > 0
  {
    Books(books.circuits[worker := CircuitAfter(books.circuits[worker], breaker, ending)],
          books.semaphores[worker := Semaphore(books.semaphores[worker].value + 1, books.semaphores[worker].waiters)],
          books.active[worker := books.active[worker] - 1])
  }

  lemma LeftIs(g: Gate, books: Books, worker: WorkerId, id: CallId, ending: Ending)
    requires EntryOf(books, worker, g) && g.active > 0
    ensures Posted(books, worker, DoEnd(g, id, ending)) == LeftBooks(books, worker, g.config, ending)
    ensures DoEnd(g, id, ending).failures > g.failures <==> CountsFailure(ending)
    ensures DoEnd(g, id, ending).openings > g.openings <==> OpensCircuit(books.circuits[worker], g.config, ending)
  {
    RecordedIs(g, ending);
  }

  lemma CircuitLeft(circuit: CircuitState, breaker: BreakerConfig, ending: Ending)
    ensures ending.Answered? ==> CircuitAfter(circuit, breaker, ending) == CircuitState(0, 0.0)
    ensures ending.Unreadable? ==> CircuitAfter(circuit, breaker, ending).failures == 1
    ensures ending.Errored? ==> CircuitAfter(circuit, breaker, ending).failures == circuit.failures + 1
    ensures ending.CancelledInFlight? ==> CircuitAfter(circuit, breaker, ending) == circuit
  {
  }

  lemma EndBooked(gates: map<WorkerId, Gate>, books: Books, limits: map<WorkerId, nat>, breaker: BreakerConfig,
                  worker: WorkerId, id: CallId, ending: Ending)
    requires Booked(gates, books, limits, breaker) && worker in gates && CanStep(gates[worker], End(id, ending))
    ensures EntryOf(books, worker, gates[worker]) && gates[worker].active > 0
    ensures var books', g, g' := LeftBooks(books, worker, breaker, ending), gates[worker],
      DoEnd(gates[worker], id, ending);
      && Booked(gates[worker := g'], books', limits, breaker) && BalancedAt(books', limits, worker)
      && (g'.failures > g.failures <==> CountsFailure(ending))
      && (g'.openings > g.openings <==> OpensCircuit(books.circuits[worker], breaker, ending))
  {
    BookedAt(gates, books, limits, breaker, worker);
    InFlightIsCounted(gates[worker], id);
    LeftIs(gates[worker], books, worker, id, ending);
    StepKeepsBooked(gates, books, limits, breaker, worker, End(id, ending), DoEnd(gates[worker], id, ending));
  }

  /** The books once a call has left the line. */
  function AbandonedBooks(books: Books, worker: WorkerId, id: CallId): Books
    requires worker in books.semaphores
  {
    books.(semaphores := books.semaphores[worker :=
      Semaphore(books.semaphores[worker].value, Without(books.semaphores[worker].waiters, id))])
  }

  lemma AbandonBooked(gates: map<WorkerId, Gate>, books: Books, limits: map<WorkerId, nat>, breaker: BreakerConfig,
                      worker: WorkerId, id: CallId)
    requires Booked(gates, books, limits, breaker) && worker in gates && CanStep(gates[worker], Abandon(id))
    ensures EntryOf(books, worker, gates[worker])
    ensures var books' := AbandonedBooks(books, worker, id);
      Booked(gates[worker := DoAbandon(gates[worker], id)], books', limits, breaker)
        && BalancedAt(books', limits, worker)
  {
    BookedAt(gates, books, limits, breaker, worker);
    SameEntry(books.circuits, worker);
    SameEntry(books.active, worker);
    StepKeepsBooked(gates, books, limits, breaker, worker, Abandon(id), DoAbandon(gates[worker], id));
  }

  class WorkerRegistry {
    const limits: map<WorkerId, nat>
    const breaker: BreakerConfig
    const metrics: MetricsRegistry
    var circuits: map<WorkerId, CircuitState>
    var semaphores: map<WorkerId, Semaphore>
    var active: map<WorkerId, nat>
    /**
     The dictionaries together with the coroutines of `call`, which the event loop holds, and what they have reported.
     */
    ghost var gates: map<WorkerId, Gate>

    ghost function Ledger(): Books
      reads this
    {
      Books(circuits, semaphores, active)
    }

    ghost predicate Valid()
      reads this
    {
      Booked(gates, Ledger(), limits, breaker)
    }

    /** For every worker the calls in flight and the free permits add up to its limit. */
    lemma Balance(worker: WorkerId)
      requires Valid() && worker in limits
      ensures BalancedAt(Ledger(), limits, worker)
    {
      BookedAt(gates, Ledger(), limits, breaker, worker);
    }

    constructor (limits: map<WorkerId, nat>, breaker: BreakerConfig, metrics: MetricsRegistry)
      requires ConfigOk(breaker)
      ensures Valid() && this.limits == limits && this.breaker == breaker && this.metrics == metrics
      ensures forall worker :: worker in gates ==> NewGate(gates[worker])
    {
      this.limits, this.breaker, this.metrics := limits, breaker, metrics;
      semaphores, circuits, active, gates := map[], map[], map[], map[];
      new;
      var left := limits.Keys;
      while left != {}
        modifies this`circuits, this`semaphores, this`active, this`gates
        invariant left <= limits.Keys && gates.Keys == limits.Keys - left
        invariant Holds(gates, Ledger())
        invariant AllNew(gates, limits, breaker)
      {
        var worker :| worker in left;
        AddWorker(worker, limits[worker]);
        left := left - {worker};
      }
      NewIsSound(gates, limits, breaker);
    }

    method AddWorker(worker: WorkerId, limit: nat)
      requires Holds(gates, Ledger()) && ConfigOk(breaker)
      modifies this`circuits, this`semaphores, this`active, this`gates
      ensures Holds(gates, Ledger())
      ensures gates == old(gates)[worker := NewGateOf(limit, breaker)]
    {
      MoveKeepsHolds(gates, Ledger(), worker, NewGateOf(limit, breaker));
      circuits := circuits[worker := CLOSED];
      semaphores := semaphores[worker := Semaphore(limit, [])];
      active := active[worker := 0];
      gates := gates[worker := NewGateOf(limit, breaker)];
    }

    /** For a worker of a valid registry the circuit refuses exactly when the history says that it is open. */
    method AssertAvailable(worker: WorkerId, now: real) returns (refused: bool)
      requires worker in circuits
      ensures refused <==> Refuses(circuits[worker], now)
      ensures Valid() && now >= 0.0 ==> worker in gates && (refused <==> OpenAt(gates[worker].history, breaker, now))
    {
      refused := circuits[worker].downUntil > now;
      if Valid() && now >= 0.0 {
        BookedAt(gates, Ledger(), limits, breaker, worker);
        BreakerRefinesHistory(gates[worker].history, breaker, now);
      }
    }

    method ActiveCount(worker: WorkerId) returns (n: nat)
      requires Valid()
      ensures worker in gates ==> worker in limits && n == |InFlightIds(gates[worker])| <= limits[worker]
      ensures worker !in gates ==> n == 0
    {
      BookedAt(gates, Ledger(), limits, breaker, worker);
      n := if worker in active then active[worker] else 0;
    }

    /**
     Unless it was refused, at the semaphore: through it when a permit is free and nobody waits, else to the end of its
     line.
     */
    method Knock(worker: WorkerId, id: CallId, now: real) returns (entry: Entry)
      requires worker in circuits && worker in semaphores && worker in active
      modifies this`semaphores, this`active
      ensures Ledger() == EnteredBooks(old(Ledger()), worker, id, now)
      ensures entry == EntryAt(old(circuits)[worker], old(semaphores)[worker], now)
    {
      var semaphore := semaphores[worker];
      var refused := AssertAvailable(worker, now);
      if refused {
        entry := Rejected(CircuitOpen);
      } else if semaphore.value > 0 && semaphore.waiters == [] {
        semaphores := semaphores[worker := Semaphore(semaphore.value - 1, [])];
        active := active[worker := active[worker] + 1];
        entry := Through;
      } else {
        SameEntry(active, worker);
        semaphores := semaphores[worker := Semaphore(semaphore.value, semaphore.waiters + [id])];
        entry := InLine;
      }
    }

    /** `call` up to its first wait: refused, through the semaphore, or in its line. */
    method BeginCall(worker: WorkerId, id: CallId, now: real) returns (entry: Entry)
      requires Valid() && now >= 0.0 && (worker in gates ==> id !in gates[worker].calls)
      modifies this`semaphores, this`active, this`gates
      ensures Valid()
      ensures worker !in limits ==> entry == Rejected(UnknownWorker) && gates == old(gates)
      ensures worker in limits ==>
        && worker in old(gates) && gates == old(gates)[worker := DoEnter(old(gates)[worker], id, now)]
        && entry == (if OpenAt(old(gates)[worker].history, breaker, now) then Rejected(CircuitOpen)
                     else if GoesThrough(old(gates)[worker]) then Through else InLine)
        && BalancedAt(Ledger(), limits, worker)
    {
      BookedAt(gates, Ledger(), limits, breaker, worker);
      if worker !in circuits {
        return Rejected(UnknownWorker);
      }
      EnterBooked(gates, Ledger(), limits, breaker, worker, id, now);
      ghost var moved := gates[worker := DoEnter(gates[worker], id, now)];
      entry := Knock(worker, id, now);
      gates := moved;
    }

    method Pass(worker: WorkerId) returns (id: CallId)
      requires worker in semaphores && worker in active && semaphores[worker].waiters != []
        && semaphores[worker].value > 0
      modifies this`semaphores, this`active
      ensures id == old(semaphores)[worker].waiters[0] && Ledger() == ServedBooks(old(Ledger()), worker)
    {
      var semaphore := semaphores[worker];
      id := semaphore.waiters[0];
      semaphores := semaphores[worker := Semaphore(semaphore.value - 1, semaphore.waiters[1..])];
      active := active[worker := active[worker] + 1];
    }

    /** The semaphore lets the first call in its line through. */
    method TakePermit(worker: WorkerId) returns (id: CallId)
      requires Valid() && worker in gates && gates[worker].line != [] && gates[worker].permits > 0
      modifies this`semaphores, this`active, this`gates
      ensures Valid() && id == old(gates)[worker].line[0] && Waits(old(gates)[worker], id)
      ensures gates == old(gates)[worker := DoAcquire(old(gates)[worker], id)]
      ensures BalancedAt(Ledger(), limits, worker)
    {
      ServeBooked(gates, Ledger(), limits, breaker, worker);
      ghost var moved := gates[worker := DoAcquire(gates[worker], gates[worker].line[0])];
      id := Pass(worker);
      gates := moved;
    }

    method RecordSuccess(worker: WorkerId)
      requires worker in circuits
      modifies this`circuits
      ensures circuits == old(circuits)[worker := CLOSED]
    {
      circuits := circuits[worker := CLOSED];
    }

    /** `checked` and `armed` are the two readings of the monotonic clock. */
    method RecordFailure(worker: WorkerId, checked: real, armed: real)
      requires worker in circuits
      modifies this`circuits, metrics`workerFailures, metrics`circuitOpen
      ensures circuits == old(circuits)[worker := AfterFailure(old(circuits)[worker], breaker, armed)]
      ensures metrics.workerFailures == Bumped(old(metrics.workerFailures), worker)
      ensures metrics.circuitOpen
        == BumpedIf(old(metrics.circuitOpen), worker, CountsOpening(old(circuits)[worker], breaker, checked))
    {
      var circuit := circuits[worker];
      circuit := circuit.(failures := circuit.failures + 1);
      metrics.IncWorkerFailure(worker);
      if circuit.failures >= breaker.failureThreshold {
        var wasClosed := circuit.downUntil <= checked;
        circuit := circuit.(downUntil := armed + breaker.recoverySeconds);
        if wasClosed {
          metrics.IncCircuitOpen(worker);
        }
      }
      circuits := circuits[worker := circuit];
    }

    /** What a call in flight records as it ends. */
    method RecordEnding(worker: WorkerId, ending: Ending)
      requires worker in circuits
      modifies this`circuits, metrics`workerFailures, metrics`circuitOpen
      ensures circuits == old(circuits)[worker := CircuitAfter(old(circuits)[worker], breaker, ending)]
      ensures metrics.workerFailures == BumpedIf(old(metrics.workerFailures), worker, CountsFailure(ending))
      ensures metrics.circuitOpen
        == BumpedIf(old(metrics.circuitOpen), worker, OpensCircuit(old(circuits)[worker], breaker, ending))
    {
      match ending {
        case Answered => RecordSuccess(worker);
        case Unreadable(checked, armed) =>
          RecordSuccess(worker);
          RecordFailure(worker, checked, armed);
        case Errored(checked, armed) => RecordFailure(worker, checked, armed);
        case CancelledInFlight =>
      }
    }

    /** The `finally` of the call and the release of its permit. */
    method Unwind(worker: WorkerId, seconds: real)
      requires metrics.Valid() && worker in active && worker in semaphores && active[worker] > 0
      modifies this`semaphores, this`active
      modifies metrics`workerCallCount, metrics`workerCallSum, metrics`workerCallBuckets, metrics`observations
      ensures metrics.Valid()
      ensures active == old(active)[worker := old(active)[worker] - 1]
      ensures semaphores == old(semaphores)[worker :=
        Semaphore(old(semaphores)[worker].value + 1, old(semaphores)[worker].waiters)]
      ensures metrics.observations
        == old(metrics.observations)[worker := Seen(old(metrics.observations), worker) + [seconds]]
    {
      active := active[worker := active[worker] - 1];
      metrics.ObserveWorkerCall(worker, seconds);
      semaphores := semaphores[worker := Semaphore(semaphores[worker].value + 1, semaphores[worker].waiters)];
    }

    method Leave(worker: WorkerId, ending: Ending, seconds: real)
      requires metrics.Valid() && worker in circuits && worker in active && worker in semaphores && active[worker] > 0
      modifies this`circuits, this`semaphores, this`active
      modifies metrics`workerFailures, metrics`circuitOpen
      modifies metrics`workerCallCount, metrics`workerCallSum, metrics`workerCallBuckets, metrics`observations
      ensures metrics.Valid() && Ledger() == LeftBooks(old(Ledger()), worker, breaker, ending)
      ensures metrics.observations
        == old(metrics.observations)[worker := Seen(old(metrics.observations), worker) + [seconds]]
      ensures metrics.workerFailures == BumpedIf(old(metrics.workerFailures), worker, CountsFailure(ending))
      ensures metrics.circuitOpen
        == BumpedIf(old(metrics.circuitOpen), worker, OpensCircuit(old(circuits)[worker], breaker, ending))
    {
      RecordEnding(worker, ending);
      Unwind(worker, seconds);
    }

    /**
     The end of a call in flight: what it records, then the `finally` and the semaphore's release. An answer clears the
     circuit's failures, an error adds one, an answer that cannot be read leaves one; the counters move with the gate's.
     */
    method EndCall(worker: WorkerId, ghost id: CallId, ending: Ending, seconds: real)
      requires Valid() && metrics.Valid() && worker in gates && CanStep(gates[worker], End(id, ending))
      modifies this`circuits, this`semaphores, this`active, this`gates
      modifies metrics`workerFailures, metrics`circuitOpen
      modifies metrics`workerCallCount, metrics`workerCallSum, metrics`workerCallBuckets, metrics`observations
      ensures Valid() && metrics.Valid() && old(gates)[worker].active > 0
      ensures gates == old(gates)[worker := DoEnd(old(gates)[worker], id, ending)]
      ensures metrics.observations
        == old(metrics.observations)[worker := Seen(old(metrics.observations), worker) + [seconds]]
      ensures worker in circuits && worker in old(circuits)
      ensures ending.Answered? ==> circuits[worker] == CircuitState(0, 0.0)
      ensures ending.Unreadable? ==> circuits[worker].failures == 1
      ensures ending.Errored? ==> circuits[worker].failures == old(circuits)[worker].failures + 1
      ensures ending.CancelledInFlight? ==> circuits[worker] == old(circuits)[worker]
      ensures metrics.workerFailures
        == BumpedIf(old(metrics.workerFailures), worker, gates[worker].failures > old(gates)[worker].failures)
      ensures metrics.circuitOpen
        == BumpedIf(old(metrics.circuitOpen), worker, gates[worker].openings > old(gates)[worker].openings)
      ensures BalancedAt(Ledger(), limits, worker)
    {
      EndBooked(gates, Ledger(), limits, breaker, worker, id, ending);
      ghost var moved := gates[worker := DoEnd(gates[worker], id, ending)];
      CircuitLeft(circuits[worker], breaker, ending);
      Leave(worker, ending, seconds);
      gates := moved;
    }

    /** A call cancelled while it waits leaves the semaphore's line. */
    method AbandonCall(worker: WorkerId, id: CallId)
      requires Valid() && worker in gates && CanStep(gates[worker], Abandon(id))
      modifies this`semaphores, this`gates
      ensures Valid() && gates == old(gates)[worker := DoAbandon(old(gates)[worker], id)]
      ensures BalancedAt(Ledger(), limits, worker)
    {
      AbandonBooked(gates, Ledger(), limits, breaker, worker, id);
      ghost var moved := gates[worker := DoAbandon(gates[worker], id)];
      semaphores := semaphores[worker := Semaphore(semaphores[worker].value, Without(semaphores[worker].waiters, id))];
      gates := moved;
    }
  }
}
