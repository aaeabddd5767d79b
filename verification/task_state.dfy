/** Task states, the transition table and the durable record (ai_bridge/task_state.py). */
module TaskStates {
  import opened Wrappers

  // `uuid4().hex` is modelled as a supply of numbers that are never handed out twice.
  type TaskId = nat
  type AttemptId = nat
  type WorkerId = string
  type Time = int
  type Payload = string

  datatype Mode = Sync | Async

  datatype TaskState = Pending | Running | Completed | Failed | Cancelled | TimedOut | Recovering | Retrying

  const TERMINAL_STATES: set<TaskState> := {Completed, Failed, Cancelled, TimedOut}
  const ACTIVE_STATES: set<TaskState> := {Running, Retrying}
  const QUEUED_STATES: set<TaskState> := {Pending, Recovering}

  predicate Terminal(state: TaskState) {
    state in TERMINAL_STATES
  }

  function AllowedTransitions(state: TaskState): set<TaskState> {
    match state
    case Pending => {Running, Cancelled, Recovering}
    case Recovering => {Pending, Running, Failed, Cancelled}
    case Retrying => {Running, Failed, Cancelled}
    case Running => {Completed, Failed, Cancelled, TimedOut, Retrying, Recovering}
    case Completed | Failed | Cancelled | TimedOut => {}
  }

  /** The same table by target: what may lead to each state. */
  lemma EdgesByTarget(source: TaskState, target: TaskState)
    ensures Terminal(source) <==> AllowedTransitions(source) == {}
    ensures target in AllowedTransitions(source) <==>
      match target
      case Pending => source == Recovering
      case Running => source in {Pending, Recovering, Retrying}
      case Completed | TimedOut | Retrying => source == Running
      case Failed => source in {Running, Recovering, Retrying}
      case Cancelled => !Terminal(source)
      case Recovering => source in {Pending, Running}
  {
    assert Terminal(source) || Cancelled in AllowedTransitions(source);
  }

  function StateName(state: TaskState): string {
    match state
    case Pending => "Pending"
    case Running => "Running"
    case Completed => "Completed"
    case Failed => "Failed"
    case Cancelled => "Cancelled"
    case TimedOut => "TimedOut"
    case Recovering => "Recovering"
    case Retrying => "Retrying"
  }

  datatype InvalidTransition = InvalidTransition(source: TaskState, target: TaskState) {
    function Message(): string {
      "cannot transition " + StateName(source) + " -> " + StateName(target)
    }
  }

  predicate KeyGiven(key: Option<string>) {
    key.Some? && key.value != ""
  }

  predicate SameAttempt(left: TaskRecord, right: TaskRecord) {
    left.attemptCount == right.attemptCount && left.dispatchAttemptId == right.dispatchAttemptId
  }

  datatype TaskRecord = TaskRecord(
    taskId: TaskId,
    workerId: WorkerId,
    prompt: string,
    workingDirectory: Option<string>,
    idempotencyKey: Option<string>,
    dispatchAttemptId: Option<AttemptId>,
    attemptCount: nat,
    state: TaskState,
    result: Option<Payload>,
    error: Option<string>,
    createdAt: Time,
    updatedAt: Time,
    startedAt: Option<Time>,
    completedAt: Option<Time>,
    timeoutSeconds: real)
  {
    /** A changed copy in the target state, or the refusal; the receiver is never changed. */
    function Transition(target: TaskState, now: Time, error: Option<string>, result: Option<Payload>)
      : (r: Result<TaskRecord, InvalidTransition>)
      ensures r.Ok? <==> target in AllowedTransitions(state)
      ensures r.Ok? ==> r.value.state == target && SameTask(r.value, this) && SameAttempt(r.value, this)
    {
      if target !in AllowedTransitions(state) then Err(InvalidTransition(state, target))
      else Ok(this.(
        state := target,
        updatedAt := now,
        startedAt := if target == Running && startedAt == None then Some(now) else startedAt,
        completedAt := if target in TERMINAL_STATES then Some(now) else completedAt,
        error := if error.Some? then error else this.error,
        result := if result.Some? then result else this.result))
    }

    function NextAttempt(attemptId: AttemptId, now: Time): TaskRecord {
      this.(dispatchAttemptId := Some(attemptId), attemptCount := attemptCount + 1, updatedAt := now)
    }

    /** Python's truth test on the key: neither missing nor empty. */
    predicate HasKey() {
      KeyGiven(idempotencyKey)
    }
  }

  /** What a submission fixes for the whole life of its record. */
  predicate SameTask(left: TaskRecord, right: TaskRecord) {
    left.taskId == right.taskId && left.workerId == right.workerId && left.prompt == right.prompt
    && left.workingDirectory == right.workingDirectory && left.idempotencyKey == right.idempotencyKey
    && left.createdAt == right.createdAt && left.timeoutSeconds == right.timeoutSeconds
  }

  // ----- A record over several transitions -----

  datatype Move = Move(target: TaskState, now: Time, error: Option<string>, result: Option<Payload>)

  function LastOf(moves: seq<Move>): Move
    requires moves != []
  {
    moves[|moves| - 1]
  }

  function Before(moves: seq<Move>): seq<Move>
    requires moves != []
  {
    moves[..|moves| - 1]
  }

  /** The record after these transitions, if each of them is allowed. */
  function Walked(r: TaskRecord, moves: seq<Move>): Option<TaskRecord> {
    if moves == [] then Some(r)
    else
      match Walked(r, Before(moves))
      case None => None
      case Some(before) =>
        var move := LastOf(moves);
        match before.Transition(move.target, move.now, move.error, move.result)
        case Ok(after) => Some(after)
        case Err(_) => None
  }

  function Either<T>(first: Option<T>, second: Option<T>): Option<T> {
    if first.Some? then first else second
  }

  /** When the first of these transitions to Running happens. */
  function FirstStart(moves: seq<Move>): Option<Time> {
    if moves == [] then None
    else Either(FirstStart(Before(moves)), if LastOf(moves).target == Running then Some(LastOf(moves).now) else None)
  }

  function LastError(moves: seq<Move>): Option<string> {
    if moves == [] then None else Either(LastOf(moves).error, LastError(Before(moves)))
  }

  function LastResult(moves: seq<Move>): Option<Payload> {
    if moves == [] then None else Either(LastOf(moves).result, LastResult(Before(moves)))
  }

  /**
   Whatever transitions an open record goes through: it is stamped started when it first runs and completed
   when it gets to a terminal state, which only the last transition can be; it carries the last error and the
   last result given; and task and attempt stay.
   */
  lemma {:induction false} StampsOfWalk(r: TaskRecord, moves: seq<Move>)
    requires Walked(r, moves).Some? && !Terminal(r.state)
    ensures var walked := Walked(r, moves).value;
      && SameTask(walked, r) && SameAttempt(walked, r)
      && walked.startedAt == Either(r.startedAt, FirstStart(moves))
      && walked.completedAt
        == (if moves != [] && Terminal(LastOf(moves).target) then Some(LastOf(moves).now) else r.completedAt)
      && walked.error == Either(LastError(moves), r.error) && walked.result == Either(LastResult(moves), r.result)
      && (moves != [] ==> walked.state == LastOf(moves).target && walked.updatedAt == LastOf(moves).now)
      && (moves == [] ==> walked == r)
    ensures forall i :: 0 <= i < |moves| - 1 ==> !Terminal(moves[i].target)
  {
    if moves != [] {
      StampsOfWalk(r, Before(moves));
    }
  }

  // ----- Failures of a worker call -----

  /** An exception leaving the worker call: the built-in timeout, or any other with its text and class name. */
  datatype Failure = Timeout(text: string) | Raised(text: string, className: string)

  function ToLower(c: char): char {
    if 'A' <= c <= 'Z' then ((c as int) + 32) as char else c
  }

  function Lowered(text: string): string {
    seq(|text|, i requires 0 <= i < |text| => ToLower(text[i]))
  }

  predicate TimeoutAt(message: string, i: nat)
    requires i <= |message|
  {
    i + 7 <= |message| && Lowered(message[i..i + 7]) == "timeout"
  }

  /** `"timeout" in message.lower()`. */
  predicate MentionsTimeout(message: string) {
    exists i :: 0 <= i <= |message| && TimeoutAt(message, i)
  }

  predicate WordAt(text: string, i: nat) {
    i + 7 <= |text| && text[i..i + 7] == "timeout"
  }

  /** A message mentions a timeout exactly when the word occurs in it once its capital letters are made small. */
  lemma MentionedInAnyCase(message: string)
    ensures MentionsTimeout(message) <==> exists i :: WordAt(Lowered(message), i)
  {
    forall i: nat | i + 7 <= |message| ensures TimeoutAt(message, i) <==> WordAt(Lowered(message), i) {
      assert Lowered(message)[i..i + 7] == Lowered(message[i..i + 7]);
    }
  }

  function FailureMessage(failure: Failure): string {
    match failure
    case Timeout(text) => if text != "" then text else "worker timed out"
    case Raised(text, className) => if text != "" then text else className
  }

  /** The terminal state a failure asks for (ai_bridge/manager.py:198-205). */
  function FailureTarget(failure: Failure): (target: TaskState)
    ensures target in {Failed, TimedOut}
  {
    if failure.Timeout? || MentionsTimeout(FailureMessage(failure)) then TimedOut else Failed
  }
}
