/**
 The circuit breaker of one worker (ai_bridge/workers.py:21-24, 154-171) and the history
 that its two fields stand for.
 */
module Breaker {

  datatype BreakerConfig = BreakerConfig(failureThreshold: nat, recoverySeconds: real)

  /** The bounds that configuration validation enforces (ai_bridge/config.py:149-151). */
  predicate ConfigOk(config: BreakerConfig) {
    config.failureThreshold >= 1 && config.recoverySeconds > 0.0
  }

  datatype CircuitState = CircuitState(failures: nat, downUntil: real)

  const CLOSED: CircuitState := CircuitState(0, 0.0)

  /** `assert_available` raises exactly when this holds. */
  predicate Refuses(circuit: CircuitState, now: real) {
    circuit.downUntil > now
  }

  /** `record_failure` reads the clock twice: to see whether the circuit was closed, then to arm it. */
  function AfterFailure(circuit: CircuitState, config: BreakerConfig, armed: real): CircuitState {
    var failures := circuit.failures + 1;
    if failures >= config.failureThreshold then CircuitState(failures, armed + config.recoverySeconds)
    else circuit.(failures := failures)
  }

  /** Whether `record_failure` counts an opening. */
  predicate CountsOpening(circuit: CircuitState, config: BreakerConfig, checked: real) {
    circuit.failures + 1 >= config.failureThreshold && circuit.downUntil <= checked
  }

  // ----- History -----

  datatype Event = Success | Failure(checked: real, armed: real)

  /** Clock readings are non-negative, and the second is not earlier than the first. */
  predicate Timed(history: seq<Event>) {
    forall i :: 0 <= i < |history| && history[i].Failure? ==> 0.0 <= history[i].checked <= history[i].armed
  }

  function Last(history: seq<Event>): Event
    requires history != []
  {
    history[|history| - 1]
  }

  function Front(history: seq<Event>): seq<Event>
    requires history != []
  {
    history[..|history| - 1]
  }

  function FailuresSinceSuccess(history: seq<Event>): nat {
    if history == [] || Last(history).Success? then 0 else 1 + FailuresSinceSuccess(Front(history))
  }

  /** The specification: enough failures since the last success, and the last one recent enough. */
  predicate OpenAt(history: seq<Event>, config: BreakerConfig, now: real) {
    FailuresSinceSuccess(history) >= config.failureThreshold
    && history != [] && Last(history).Failure? && now < Last(history).armed + config.recoverySeconds
  }

  /** The circuit the code holds after a history. */
  function Circuit(history: seq<Event>, config: BreakerConfig): CircuitState {
    if history == [] then CLOSED
    else
      match Last(history)
      case Success => CLOSED
      case Failure(_, armed) => AfterFailure(Circuit(Front(history), config), config, armed)
  }

  /** The openings the code counts over a history. */
  function Openings(history: seq<Event>, config: BreakerConfig): nat {
    if history == [] then 0
    else Openings(Front(history), config)
         + (if Last(history).Failure?
           && CountsOpening(Circuit(Front(history), config), config, Last(history).checked) then 1 else 0)
  }

  lemma {:induction false} CircuitFields(history: seq<Event>, config: BreakerConfig)
    requires ConfigOk(config)
    ensures var circuit := Circuit(history, config);
      && circuit.failures == FailuresSinceSuccess(history)
      && circuit.downUntil == (if circuit.failures >= config.failureThreshold
        then Last(history).armed + config.recoverySeconds else 0.0)
  {
    if history != [] && Last(history).Failure? {
      CircuitFields(Front(history), config);
    }
  }

  /** The breaker refuses a call at a time exactly when its history says it is open then. */
  lemma BreakerRefinesHistory(history: seq<Event>, config: BreakerConfig, now: real)
    requires ConfigOk(config) && now >= 0.0
    ensures Refuses(Circuit(history, config), now) <==> OpenAt(history, config, now)
  {
    CircuitFields(history, config);
  }

  /** A failure that finds the circuit closed and leaves it open. */
  predicate OpensHere(history: seq<Event>, config: BreakerConfig, i: nat)
    requires i < |history|
  {
    history[i].Failure? && !OpenAt(history[..i], config, history[i].checked)
      && OpenAt(history[..i + 1], config, history[i].armed)
  }

  function ClosedToOpen(history: seq<Event>, config: BreakerConfig): set<nat> {
    set i | 0 <= i < |history| && OpensHere(history, config, i)
  }

  lemma EarlierOpenings(history: seq<Event>, config: BreakerConfig, i: nat)
    requires i + 1 < |history|
    ensures OpensHere(history, config, i) <==> OpensHere(Front(history), config, i)
  {
    var front := Front(history);
    assert front[i] == history[i] && front[..i] == history[..i] && front[..i + 1] == history[..i + 1];
  }

  lemma LastOpening(history: seq<Event>, config: BreakerConfig)
    requires ConfigOk(config) && Timed(history) && history != []
    ensures OpensHere(history, config, |history| - 1)
      <==> Last(history).Failure? && CountsOpening(Circuit(Front(history), config), config, Last(history).checked)
  {
    assert history[..|history|] == history;
    if Last(history).Failure? {
      BreakerRefinesHistory(Front(history), config, Last(history).checked);
      CircuitFields(Front(history), config);
    }
  }

  lemma OneMoreOpening(history: seq<Event>, config: BreakerConfig)
    requires history != []
    ensures ClosedToOpen(history, config)
      == ClosedToOpen(Front(history), config)
        + (if OpensHere(history, config, |history| - 1) then {|history| - 1} else {})
  {
    forall i: nat | i + 1 < |history| ensures OpensHere(history, config, i) <==> OpensHere(Front(history), config, i) {
      EarlierOpenings(history, config, i);
    }
  }

  /**
   `circuit_open` counts exactly the closed-to-open events; a failure after the cooldown re-opens and counts again.
   */
  lemma {:induction false} OpeningsCountEvents(history: seq<Event>, config: BreakerConfig)
    requires ConfigOk(config) && Timed(history)
    ensures Openings(history, config) == |ClosedToOpen(history, config)|
  {
    if history != [] {
      OpeningsCountEvents(Front(history), config);
      LastOpening(history, config);
      OneMoreOpening(history, config);
    }
  }
}
