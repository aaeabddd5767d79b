/**
 The polling loop of the watchdog (ai_watchdog/watchdog.py:190-226) against an arbitrary stream
 of responses and request durations. Only requests and sleeps take time, and a sleep is exact;
 `time.sleep` refuses a negative number of seconds.
 */
module Watchdog {

  datatype Settings = Settings(pollInterval: real, timeoutSeconds: real, maxTransientErrors: int)

  /** What one check comes back with; `state` is empty when the response has none. */
  datatype Response<T> = Transient(message: string) | Fatal(message: string) | Answer(state: string, body: T)

  datatype Outcome<T> = Finished(body: T) | Rejected(message: string) | StateMissing | GaveUp(message: string) | Expired(lastState: string) | SleepRefused

  const WATCHED_STATES: set<string> := {"Completed", "Failed", "Cancelled", "TimedOut"}

  /** One wait: the response to the i-th check and the seconds it takes are the environment's to choose. */
  datatype Watch<!T> = Watch(settings: Settings, start: real, responses: nat -> Response<T>, seconds: nat -> real)
  {
    function Deadline(): real {
      start + settings.timeoutSeconds
    }

    /** `sleep_until_next_poll`. */
    function AfterSleep(now: real): real {
      var remaining := Deadline() - now;
      if remaining <= 0.0 then now
      else if settings.pollInterval <= remaining then now + settings.pollInterval
      else now + remaining
    }

    /** When the loop comes to its i-th check. */
    function At(i: nat): real {
      if i == 0 then start else AfterSleep(At(i - 1) + seconds(i - 1))
    }

    /** The unbroken transient errors just before the i-th check. */
    function Streak(i: nat): nat {
      if i == 0 || !responses(i - 1).Transient? then 0 else Streak(i - 1) + 1
    }

    /** The last state reported before the i-th check. */
    function LastState(i: nat): string {
      if i == 0 then "unknown"
      else
        match responses(i - 1)
        case Answer(state, _) => if state == "" then "missing" else state
        case _ => LastState(i - 1)
    }

    /** The i-th response ends the wait. */
    predicate Concluding(i: nat) {
      match responses(i)
      case Transient(_) => Streak(i + 1) > settings.maxTransientErrors
      case Fatal(_) => true
      case Answer(state, _) => state == "" || state in WATCHED_STATES
    }

    /** The sleep after the i-th check is refused: the deadline is ahead, and the interval is negative. */
    predicate BadSleep(i: nat) {
      settings.pollInterval < 0.0 && At(i) + seconds(i) < Deadline()
    }

    /** The i-th round ends the wait. */
    predicate Decides(i: nat) {
      Concluding(i) || BadSleep(i)
    }

    function Verdict(i: nat): Outcome<T>
      requires Decides(i)
    {
      if !Concluding(i) then SleepRefused
      else
      match responses(i)
      case Transient(message) => GaveUp(message)
      case Fatal(message) => Rejected(message)
      case Answer(state, body) => if state == "" then StateMissing else Finished(body)
    }

    ghost predicate Checks(polls: nat) {
      && (forall i :: 0 <= i < polls ==> At(i) < Deadline())
      && (forall i :: 0 <= i < polls - 1 ==> !Decides(i))
    }

    /** The last check decides, or the deadline has passed. */
    ghost predicate Ends(polls: nat, outcome: Outcome<T>, end: real) {
      if polls > 0 && Decides(polls - 1) then
        outcome == Verdict(polls - 1) && end == At(polls - 1) + seconds(polls - 1)
      else
        At(polls) >= Deadline() && outcome == Expired(LastState(polls)) && end == At(polls)
    }

    /** The specification: `polls` checks are made, each before the deadline, and only the last may decide. */
    ghost predicate Concludes(polls: nat, outcome: Outcome<T>, end: real) {
      Checks(polls) && Ends(polls, outcome, end)
    }

    /** Requests take time within bounds, and a request and the interval after it together at least `pace`. */
    ghost predicate Realistic(slowest: real, pace: real) {
      && pace > 0.0 && (forall i: nat :: 0.0 <= seconds(i) <= slowest)
      && (settings.pollInterval >= 0.0 ==> forall i: nat :: seconds(i) + settings.pollInterval >= pace)
    }
  }

  lemma NoLaterConclusion<T>(w: Watch<T>, m: nat, a: Outcome<T>, x: real, n: nat, b: Outcome<T>, y: real)
    requires w.Concludes(m, a, x) && w.Concludes(n, b, y)
    ensures n <= m
  {
    if m < n {
      assert false;
    }
  }

  /** The wait has exactly one conclusion. */
  lemma ConclusionUnique<T>(w: Watch<T>, m: nat, a: Outcome<T>, x: real, n: nat, b: Outcome<T>, y: real)
    requires w.Concludes(m, a, x) && w.Concludes(n, b, y)
    ensures m == n && a == b && x == y
  {
    NoLaterConclusion(w, m, a, x, n, b, y);
    NoLaterConclusion(w, n, b, y, m, a, x);
  }

  // ----- Time -----

  /** The first i checks were made before the deadline and left the wait going. */
  ghost predicate Reached<T>(w: Watch<T>, i: nat) {
    forall k :: 0 <= k < i ==> w.At(k) < w.Deadline() && !w.Decides(k)
  }

  /** i times x, added up. */
  function Times(i: nat, x: real): real {
    if i == 0 then 0.0 else Times(i - 1, x) + x
  }

  lemma {:induction false} TimesIs(i: nat, x: real)
    ensures Times(i, x) == i as real * x
  {
    if i > 0 {
      TimesIs(i - 1, x);
      assert i as real * x == (i - 1) as real * x + x;
    }
  }

  lemma PollLater<T>(w: Watch<T>, slowest: real, pace: real, i: nat)
    requires w.Realistic(slowest, pace) && !w.BadSleep(i) && w.At(i + 1) < w.Deadline()
    ensures w.At(i + 1) >= w.At(i) + pace
  {
    assert w.seconds(i) >= 0.0 && (w.settings.pollInterval >= 0.0 ==> w.seconds(i) + w.settings.pollInterval >= pace);
    assert w.At(i + 1) == w.AfterSleep(w.At(i) + w.seconds(i));
  }

  /** Check i comes no earlier than i times the pace after the start, unless the deadline has passed. */
  lemma {:induction false} PollsAreSpaced<T>(w: Watch<T>, slowest: real, pace: real, i: nat)
    requires w.Realistic(slowest, pace) && Reached(w, i)
    ensures w.At(i) >= w.Deadline() || w.At(i) >= w.start + Times(i, pace)
  {
    if i > 0 {
      PollsAreSpaced(w, slowest, pace, i - 1);
      assert !w.BadSleep(i - 1) && w.seconds(i - 1) >= 0.0;
      if w.At(i) < w.Deadline() {
        PollLater(w, slowest, pace, i - 1);
      }
    }
  }

  function Ceiling(x: real): int {
    -((-x).Floor)
  }

  /** The bound on the number of checks: the timeout over the pace, rounded up. */
  function MostPolls(settings: Settings, pace: real): nat
    requires pace > 0.0
  {
    var n := Ceiling(settings.timeoutSeconds / pace);
    if n < 0 then 0 else n
  }

  lemma Scaled(x: real, y: real, factor: real)
    requires x >= y && factor > 0.0
    ensures x * factor >= y * factor
  {
  }

  lemma Quotient(x: real, interval: real, timeout: real)
    requires interval > 0.0 && x * interval < timeout
    ensures x < timeout / interval
  {
    var q := timeout / interval;
    assert q * interval == timeout;
    if x >= q {
      Scaled(x, q, interval);
    }
  }

  lemma WithinCeiling(i: nat, interval: real, timeout: real)
    requires interval > 0.0 && i as real * interval < timeout
    ensures i < Ceiling(timeout / interval)
  {
    Quotient(i as real, interval, timeout);
  }

  /** A check made before the deadline is one of the first `MostPolls`. */
  lemma PollsBounded<T>(w: Watch<T>, slowest: real, pace: real, i: nat)
    requires w.Realistic(slowest, pace) && Reached(w, i) && w.At(i) < w.Deadline()
    ensures i < MostPolls(w.settings, pace)
  {
    PollsAreSpaced(w, slowest, pace, i);
    TimesIs(i, pace);
    WithinCeiling(i, pace, w.settings.timeoutSeconds);
  }

  lemma NoSleepNoTime<T>(w: Watch<T>)
    requires w.settings.pollInterval < 0.0 && !w.BadSleep(0)
    ensures w.At(1) >= w.Deadline()
  {
    assert w.At(1) == w.AfterSleep(w.At(0) + w.seconds(0));
  }

  /**
   At most ⌈timeout / pace⌉ checks, and an end no later than one request after the deadline. With a positive
   interval the pace is the interval; with a negative one the first sleep is refused.
   */
  lemma WaitIsBounded<T>(w: Watch<T>, slowest: real, pace: real, polls: nat, outcome: Outcome<T>, end: real)
    requires w.Realistic(slowest, pace) && w.Concludes(polls, outcome, end)
    ensures polls <= MostPolls(w.settings, pace)
    ensures end <= w.start || end <= w.start + w.settings.timeoutSeconds + slowest
    ensures w.settings.pollInterval < 0.0 ==> polls <= 1
  {
    if polls > 0 {
      assert Reached(w, polls - 1);
      PollsBounded(w, slowest, pace, polls - 1);
      assert w.seconds(polls - 1) <= slowest;
    }
    if w.settings.pollInterval < 0.0 && !w.BadSleep(0) {
      NoSleepNoTime(w);
    }
  }

  // ----- How soon it looks again -----

  function Earlier(x: real, y: real): real {
    if x <= y then x else y
  }

  /** With an interval that is not negative a sleep before the deadline ends at the next poll or the deadline. */
  lemma SleepEnds<T>(w: Watch<T>, now: real)
    requires w.settings.pollInterval >= 0.0 && now < w.start + w.settings.timeoutSeconds
    ensures w.AfterSleep(now) == Earlier(now + w.settings.pollInterval, w.start + w.settings.timeoutSeconds)
  {
  }

  /** Two checks are at most an interval and the slowest request apart. */
  lemma NextPollSoon<T>(w: Watch<T>, slowest: real, pace: real, i: nat)
    requires w.Realistic(slowest, pace) && w.settings.pollInterval >= 0.0
    ensures w.At(i + 1) <= w.At(i) + slowest + w.settings.pollInterval
  {
    var now := w.At(i) + w.seconds(i);
    assert w.At(i + 1) == w.AfterSleep(now) && w.seconds(i) <= slowest;
  }

  lemma {:induction false} PollsKeepUp<T>(w: Watch<T>, slowest: real, pace: real, most: real, i: nat)
    requires w.Realistic(slowest, pace) && w.settings.pollInterval >= 0.0 && most == slowest + w.settings.pollInterval
    ensures w.At(i) <= w.start + Times(i, most)
  {
    if i > 0 {
      PollsKeepUp(w, slowest, pace, most, i - 1);
      NextPollSoon(w, slowest, pace, i - 1);
    }
  }

  lemma Stretched(x: real, y: real, factor: real)
    requires x > y && factor > 0.0
    ensures x * factor > y * factor
  {
  }

  lemma AtLeastCeiling(polls: nat, most: real, timeout: real)
    requires most > 0.0 && polls as real * most >= timeout
    ensures polls >= Ceiling(timeout / most)
  {
    var q := timeout / most;
    assert q * most == timeout;
    if q > polls as real {
      Stretched(q, polls as real, most);
    }
  }

  /**
   A wait that expires has lasted until its deadline and has looked often enough: at least
   ⌈timeout / (interval + slowest request)⌉ times.
   */
  lemma ExpiredLookedOften<T>(w: Watch<T>, slowest: real, pace: real, polls: nat, outcome: Outcome<T>, end: real)
    requires w.Realistic(slowest, pace) && w.settings.pollInterval >= 0.0
    requires w.Concludes(polls, outcome, end) && outcome.Expired?
    ensures end >= w.start + w.settings.timeoutSeconds && slowest + w.settings.pollInterval > 0.0
    ensures polls >= Ceiling(w.settings.timeoutSeconds / (slowest + w.settings.pollInterval))
  {
    PollsKeepUp(w, slowest, pace, slowest + w.settings.pollInterval, polls);
    TimesIs(polls, slowest + w.settings.pollInterval);
    assert 0.0 <= w.seconds(0) <= slowest && w.seconds(0) + w.settings.pollInterval >= pace;
    AtLeastCeiling(polls, slowest + w.settings.pollInterval, w.settings.timeoutSeconds);
  }

  /** From this moment on every check is answered with a terminal state. */
  ghost predicate OverFrom<T>(w: Watch<T>, moment: real) {
    forall i: nat :: w.At(i) >= moment ==> w.responses(i).Answer? && w.responses(i).state in WATCHED_STATES
  }

  /**
   A task that is over from some moment on is noticed by the first check after it, within an interval and a
   request of that moment; only a deadline that is no further away comes before.
   */
  lemma NoticedInTime<T>(w: Watch<T>, slowest: real, pace: real, polls: nat, outcome: Outcome<T>, end: real,
                         moment: real)
    requires w.Realistic(slowest, pace) && w.settings.pollInterval >= 0.0 && w.Concludes(polls, outcome, end)
    requires OverFrom(w, moment) && moment >= w.start
    ensures !outcome.Expired? ==>
      polls > 0 && w.At(polls - 1) <= moment + slowest + w.settings.pollInterval
      && end == w.At(polls - 1) + w.seconds(polls - 1)
    ensures outcome.Expired? ==>
      w.start + w.settings.timeoutSeconds <= moment + slowest + w.settings.pollInterval
  {
    assert 0.0 <= w.seconds(0) <= slowest;
    if outcome.Expired? && polls > 0 {
      assert !w.Decides(polls - 1);
      NextPollSoon(w, slowest, pace, polls - 1);
    }
    if !outcome.Expired? && polls > 1 {
      assert !w.Decides(polls - 2);
      NextPollSoon(w, slowest, pace, polls - 2);
    }
  }

  // ----- The loop -----

  lemma ExpiresHere<T>(w: Watch<T>, i: nat)
    requires Reached(w, i) && w.At(i) >= w.Deadline()
    ensures w.Concludes(i, Expired(w.LastState(i)), w.At(i))
  {
  }

  lemma EndsHere<T>(w: Watch<T>, i: nat)
    requires w.Decides(i)
    ensures w.Ends(i + 1, w.Verdict(i), w.At(i) + w.seconds(i))
  {
  }

  lemma ChecksOneMore<T>(w: Watch<T>, i: nat)
    requires Reached(w, i) && w.At(i) < w.Deadline()
    ensures w.Checks(i + 1)
  {
  }

  lemma DecidesHere<T>(w: Watch<T>, i: nat)
    requires Reached(w, i) && w.At(i) < w.Deadline() && w.Decides(i)
    ensures w.Concludes(i + 1, w.Verdict(i), w.At(i) + w.seconds(i))
  {
    EndsHere(w, i);
    ChecksOneMore(w, i);
  }

  lemma GoesOn<T>(w: Watch<T>, i: nat)
    requires Reached(w, i) && w.At(i) < w.Deadline() && !w.Decides(i)
    ensures Reached(w, i + 1) && w.At(i + 1) == w.AfterSleep(w.At(i) + w.seconds(i))
    ensures w.LastState(i + 1) == if w.responses(i).Answer? then w.responses(i).state else w.LastState(i)
    ensures w.Streak(i + 1) == if w.responses(i).Transient? then w.Streak(i) + 1 else 0
  {
  }

  /** After this response the loop comes to its sleep: it is refused, or the next check follows. */
  ghost predicate Sleeps<T>(w: Watch<T>, i: nat, streak: nat, lastState: string) {
    var now := w.At(i) + w.seconds(i);
    if w.settings.pollInterval < 0.0 && now < w.Deadline() then w.Concludes(i + 1, SleepRefused, now)
    else
      && Reached(w, i + 1) && w.At(i + 1) == w.AfterSleep(now)
      && w.Streak(i + 1) == streak && w.LastState(i + 1) == lastState
  }

  /** One round of the loop. */
  lemma Round<T>(w: Watch<T>, i: nat)
    requires Reached(w, i) && w.At(i) < w.Deadline()
    ensures var response, now := w.responses(i), w.At(i) + w.seconds(i);
      if response.Transient? then
        if w.Streak(i) + 1 > w.settings.maxTransientErrors then w.Concludes(i + 1, GaveUp(response.message), now)
        else Sleeps(w, i, w.Streak(i) + 1, w.LastState(i))
      else if response.Fatal? then w.Concludes(i + 1, Rejected(response.message), now)
      else if response.state in WATCHED_STATES then w.Concludes(i + 1, Finished(response.body), now)
      else if response.state == "" then w.Concludes(i + 1, StateMissing, now)
      else Sleeps(w, i, 0, response.state)
  {
    assert "" !in WATCHED_STATES;
    if w.Decides(i) {
      DecidesHere(w, i);
    } else {
      GoesOn(w, i);
    }
  }

  /**
   Before the deadline a sleep ends at the next poll or at the deadline, the earlier of the two; `time.sleep` refuses it
   for a negative interval.
   */
  method SleepUntilNextPoll<T>(w: Watch<T>, deadline: real, now: real) returns (later: real, refused: bool)
    requires deadline == w.start + w.settings.timeoutSeconds
    ensures refused <==> now < deadline && w.settings.pollInterval < 0.0
    ensures !refused ==> later == w.AfterSleep(now)
    ensures !refused && now < deadline ==> later == Earlier(now + w.settings.pollInterval, deadline) >= now
    ensures now >= deadline ==> later == now
  {
    var remaining := deadline - now;
    later, refused := now, false;
    if remaining > 0.0 {
      var seconds := if w.settings.pollInterval <= remaining then w.settings.pollInterval else remaining;
      refused := seconds < 0.0;
      later := now + seconds;
    }
  }

  /** Only so many checks can come before the deadline. */
  lemma Horizon<T>(w: Watch<T>, slowest: real, pace: real) returns (most: nat)
    requires w.Realistic(slowest, pace)
    ensures forall i: nat :: Reached(w, i) && w.At(i) < w.Deadline() ==> i < most
  {
    most := MostPolls(w.settings, pace);
    forall i: nat | Reached(w, i) && w.At(i) < w.Deadline() ensures i < most {
      PollsBounded(w, slowest, pace, i);
    }
  }

  method WaitForTask<T>(w: Watch<T>, ghost slowest: real, ghost pace: real)
    returns (outcome: Outcome<T>, polls: nat, end: real)
    requires w.Realistic(slowest, pace)
    ensures w.Concludes(polls, outcome, end)
  {
    var deadline := w.start + w.settings.timeoutSeconds;
    var transientErrors := 0;
    var lastState := "unknown";
    polls, end := 0, w.start;
    ghost var most := Horizon(w, slowest, pace);
    while true
      invariant end == w.At(polls) && transientErrors == w.Streak(polls) && lastState == w.LastState(polls)
      invariant Reached(w, polls) && polls <= most
      decreases most - polls
    {
      if end >= deadline {
        ExpiresHere(w, polls);
        return Expired(lastState), polls, end;
      }
      Round(w, polls);
      var response := w.responses(polls);
      end := end + w.seconds(polls);
      polls := polls + 1;
      match response {
        case Transient(message) =>
          transientErrors := transientErrors + 1;
          if transientErrors > w.settings.maxTransientErrors {
            return GaveUp(message), polls, end;
          }
        case Fatal(message) =>
          return Rejected(message), polls, end;
        case Answer(state, body) =>
          transientErrors := 0;
          lastState := if state == "" then "missing" else state;
          if state in WATCHED_STATES {
            return Finished(body), polls, end;
          }
          if state == "" {
            return StateMissing, polls, end;
          }
      }
      var later, refused := SleepUntilNextPoll(w, deadline, end);
      if refused {
        return SleepRefused, polls, end;
      }
      end := later;
    }
  }

  // ----- What the outcome says about the responses -----

  /** The n responses before the i-th check are all transient errors. */
  ghost predicate AllTransient<T>(w: Watch<T>, i: nat, n: nat) {
    n <= i && forall k :: i - n <= k < i ==> w.responses(k).Transient?
  }

  lemma {:induction false} StreakMeaning<T>(w: Watch<T>, i: nat, n: nat)
    ensures w.Streak(i) >= n <==> AllTransient(w, i, n)
  {
    if n > 0 && i > 0 && w.responses(i - 1).Transient? {
      StreakMeaning(w, i - 1, n - 1);
      assert AllTransient(w, i, n) <==> AllTransient(w, i - 1, n - 1);
    } else if n > 0 && i > 0 {
      assert !w.responses(i - 1).Transient?;
    }
  }

  predicate Ongoing<T>(response: Response<T>) {
    response.Transient? || (response.Answer? && response.state != "" && response.state !in WATCHED_STATES)
  }

  /** It gives up exactly when the last max + 1 responses, and never before so many in a row, were transient errors. */
  lemma GivesUpExactly<T>(w: Watch<T>, polls: nat, outcome: Outcome<T>, end: real)
    requires w.Concludes(polls, outcome, end) && w.settings.maxTransientErrors >= 0
    ensures outcome.GaveUp? <==> AllTransient(w, polls, w.settings.maxTransientErrors + 1)
    ensures var n := w.settings.maxTransientErrors + 1; forall i :: 0 <= i < polls ==> !AllTransient(w, i, n)
  {
    var n := w.settings.maxTransientErrors + 1;
    StreakMeaning(w, polls, n);
    forall i | 0 <= i < polls ensures !AllTransient(w, i, n) {
      StreakMeaning(w, i, n);
      if i > 0 {
        assert !w.Decides(i - 1);
      }
    }
  }

  /** It returns the first terminal response, and only when every earlier one left the wait going. */
  lemma ReturnsFirstTerminal<T>(w: Watch<T>, polls: nat, outcome: Outcome<T>, end: real)
    requires w.Concludes(polls, outcome, end)
    ensures outcome.Finished?
      <==> polls > 0 && w.responses(polls - 1).Answer? && w.responses(polls - 1).state in WATCHED_STATES
    ensures outcome.Finished? ==> outcome.body == w.responses(polls - 1).body
    ensures forall i :: 0 <= i < polls - 1 ==> Ongoing(w.responses(i))
    ensures outcome.Expired? ==> forall i :: 0 <= i < polls ==> Ongoing(w.responses(i))
  {
    assert "" !in WATCHED_STATES;
    forall i | 0 <= i < polls && (i < polls - 1 || outcome.Expired?) ensures Ongoing(w.responses(i)) {
      assert !w.Decides(i);
    }
  }

  /** The latest answer before the i-th check is that to check k. */
  ghost predicate LatestAnswer<T>(w: Watch<T>, i: nat, k: nat) {
    k < i && w.responses(k).Answer? && forall j :: k < j < i ==> !w.responses(j).Answer?
  }

  lemma {:induction false} UnansweredState<T>(w: Watch<T>, i: nat)
    requires forall k :: 0 <= k < i ==> !w.responses(k).Answer?
    ensures w.LastState(i) == "unknown"
  {
    if i > 0 {
      UnansweredState(w, i - 1);
    }
  }

  lemma {:induction false} AnsweredState<T>(w: Watch<T>, i: nat, k: nat)
    requires LatestAnswer(w, i, k)
    ensures w.LastState(i) == if w.responses(k).state == "" then "missing" else w.responses(k).state
  {
    if k < i - 1 {
      AnsweredState(w, i - 1, k);
    }
  }

  /** An expired wait names the state of the latest answer, or none when there was no answer. */
  lemma ExpiredNamesLatest<T>(w: Watch<T>, polls: nat, outcome: Outcome<T>, end: real)
    requires w.Concludes(polls, outcome, end) && outcome.Expired?
    ensures (forall k :: 0 <= k < polls ==> !w.responses(k).Answer?) ==> outcome.lastState == "unknown"
    ensures forall k :: LatestAnswer(w, polls, k) ==> outcome.lastState == w.responses(k).state
  {
    ReturnsFirstTerminal(w, polls, outcome, end);
    if forall k :: 0 <= k < polls ==> !w.responses(k).Answer? {
      UnansweredState(w, polls);
    }
    forall k: nat | LatestAnswer(w, polls, k) ensures outcome.lastState == w.responses(k).state {
      AnsweredState(w, polls, k);
    }
  }

  /** An error is that of the last check: its message, a missing state, or the sleep after an answer that goes on. */
  lemma ErrorsAreTheLast<T>(w: Watch<T>, polls: nat, outcome: Outcome<T>, end: real)
    requires w.Concludes(polls, outcome, end) && w.settings.maxTransientErrors >= 0
    ensures !outcome.Expired? ==> polls > 0
    ensures outcome.Rejected? <==> polls > 0 && w.responses(polls - 1).Fatal?
    ensures outcome.Rejected? ==> outcome.message == w.responses(polls - 1).message
    ensures outcome.StateMissing? <==> polls > 0 && w.responses(polls - 1).Answer? && w.responses(polls - 1).state == ""
    ensures outcome.GaveUp? ==> w.responses(polls - 1).Transient? && outcome.message == w.responses(polls - 1).message
    ensures outcome.SleepRefused? ==> w.settings.pollInterval < 0.0 && end < w.start + w.settings.timeoutSeconds
    ensures outcome.SleepRefused? ==> Ongoing(w.responses(polls - 1))
  {
    assert "" !in WATCHED_STATES;
    forall i | 0 <= i < polls - 1 ensures !w.Decides(i) {
    }
  }
}

/** The watchdog watching a task of the bridge: each answer shows the record as some state of the run has it. */
module WatchedTasks {
  import opened TaskStates
  import opened Protocol
  import opened Theorems
  import opened Watchdog

  /**
   The watchdog's own list of terminal names is the bridge's set of terminal states, and no state has an empty name.
   */
  lemma WatchedStatesAgree(state: TaskState)
    ensures StateName(state) in WATCHED_STATES <==> Terminal(state)
    ensures StateName(state) != ""
  {
    assert |StateName(state)| > 0;
    match state
    case Pending => assert StateName(state)[0] == 'P';
    case Running => assert StateName(state)[0] == 'R';
    case Recovering => assert StateName(state)[0] == 'R';
    case Retrying => assert StateName(state)[0] == 'R';
    case _ =>
  }

  /** `check` reads the stored record in one step of the run. */
  ghost predicate ShownBy(run: Run, id: TaskId, n: nat, response: Response<TaskRecord>) {
    n < |run.states| && id in run.states[n].table
    && response == Answer(StateName(run.states[n].table[id].state), run.states[n].table[id])
  }

  ghost predicate Watches(run: Run, id: TaskId, w: Watch<TaskRecord>, when: nat -> nat, polls: nat) {
    forall i :: 0 <= i < polls && w.responses(i).Answer? ==> ShownBy(run, id, when(i), w.responses(i))
  }

  /**
   For a task that every start of the run finds ready, what the watchdog returns is what every later state
   holds, so every later check shows the same record; and every earlier answer showed the task still open.
   */
  lemma ReturnedRecordIsFinal(run: Run, id: TaskId, w: Watch<TaskRecord>, when: nat -> nat, polls: nat,
                              outcome: Outcome<TaskRecord>, end: real, j: nat)
    requires OrderlyFor(run, id, false) && w.Concludes(polls, outcome, end) && Watches(run, id, w, when, polls)
    requires outcome.Finished? && polls > 0 && when(polls - 1) <= j < |run.states|
    ensures Terminal(outcome.body.state) && id in run.states[j].table && run.states[j].table[id] == outcome.body
    ensures forall i :: 0 <= i < polls - 1 && w.responses(i).Answer? ==> !Terminal(w.responses(i).body.state)
  {
    ReturnsFirstTerminal(w, polls, outcome, end);
    var n := when(polls - 1);
    assert ShownBy(run, id, n, w.responses(polls - 1));
    WatchedStatesAgree(run.states[n].table[id].state);
    TerminalFrozen(run, n, j, id);
    forall i | 0 <= i < polls - 1 && w.responses(i).Answer? ensures !Terminal(w.responses(i).body.state) {
      assert ShownBy(run, id, when(i), w.responses(i));
      WatchedStatesAgree(w.responses(i).body.state);
    }
  }

  /** Against the bridge the wait never ends for a missing state, and one that expires never saw the task over. */
  lemma ExpiredSawOpen(run: Run, id: TaskId, w: Watch<TaskRecord>, when: nat -> nat, polls: nat,
                       outcome: Outcome<TaskRecord>, end: real)
    requires w.Concludes(polls, outcome, end) && Watches(run, id, w, when, polls)
    ensures !outcome.StateMissing?
    ensures outcome.Expired? ==> forall i :: 0 <= i < polls && w.responses(i).Answer? ==>
      !Terminal(w.responses(i).body.state)
  {
    ReturnsFirstTerminal(w, polls, outcome, end);
    forall i | 0 <= i < polls && w.responses(i).Answer?
      ensures w.responses(i).state != "" && (outcome.Expired? ==> !Terminal(w.responses(i).body.state))
    {
      assert ShownBy(run, id, when(i), w.responses(i));
      WatchedStatesAgree(w.responses(i).body.state);
    }
  }
}
