/** The circuit breaker (swarm-runtime/circuit_breaker.rs) as a timed state machine. */
module CircuitBreaking {
  import opened Wrappers
  import opened Core

  datatype CircuitState =
    | Closed
    | Open(openedAt: Timestamp, retryAfter: Timestamp)
    | HalfOpen

  datatype Breaker = Breaker(
    state: CircuitState,
    consecutiveFailures: nat,
    retryDeadline: Option<Timestamp>,
    threshold: nat,
    openDuration: Duration)
  {
    // The second component says whether the call is admitted.
    function Acquire(now: Timestamp): (Breaker, bool) {
      var elapsed := retryDeadline.None? || now >= retryDeadline.value;
      match state
      case Closed => (this, true)
      case HalfOpen => (this, false)
      case Open(_, _) =>
        if elapsed then (this.(state := HalfOpen, retryDeadline := None), true) else (this, false)
    }

    function RecordSuccess(): Breaker {
      this.(state := Closed, consecutiveFailures := 0, retryDeadline := None)
    }

    function RecordFailure(now: Timestamp): Breaker {
      var failures := consecutiveFailures + 1;
      var shouldOpen := state.HalfOpen? || (state.Closed? && failures >= threshold);
      if shouldOpen then
        this.(state := Open(now, now + openDuration),
              consecutiveFailures := failures,
              retryDeadline := Some(now + openDuration))
      else this.(consecutiveFailures := failures)
    }
  }

  function NewBreaker(threshold: nat, openDuration: Duration): Breaker {
    Breaker(Closed, 0, None, threshold, openDuration)
  }

  // ---- Traces ----

  datatype Event = Acquire(at: Timestamp) | Success(at: Timestamp) | Failure(at: Timestamp)

  function Step(b: Breaker, e: Event): Breaker {
    match e
    case Acquire(t) => b.Acquire(t).0
    case Success(_) => b.RecordSuccess()
    case Failure(t) => b.RecordFailure(t)
  }

  predicate Admits(b: Breaker, e: Event) {
    e.Acquire? && b.Acquire(e.at).1
  }

  function Play(b: Breaker, events: seq<Event>): Breaker
    decreases |events|
  {
    if events == [] then b else Play(Step(b, events[0]), events[1..])
  }

  // Failures recorded after the last success, on top of `count`.
  function FailuresSinceSuccess(events: seq<Event>, count: nat): nat
    decreases |events|
  {
    if events == [] then count
    else
      FailuresSinceSuccess(events[1..],
        match events[0]
        case Acquire(_) => count
        case Success(_) => 0
        case Failure(_) => count + 1)
  }

  predicate Consistent(b: Breaker) {
    && (b.retryDeadline.Some? <==> b.state.Open?)
    && (b.state.Open? ==> b.retryDeadline.value == b.state.retryAfter == b.state.openedAt + b.openDuration)
    && (b.state.Closed? ==> b.consecutiveFailures < b.threshold)
  }

  // A new breaker is consistent exactly when its threshold is at least one.
  lemma NewBreakerConsistentIff(threshold: nat, openDuration: Duration)
    ensures Consistent(NewBreaker(threshold, openDuration)) <==> threshold >= 1
  {
  }

  lemma {:induction false} PlayKeepsConsistent(b: Breaker, events: seq<Event>)
    requires Consistent(b) && b.threshold >= 1
    ensures var b' := Play(b, events);
            && Consistent(b') && b'.threshold == b.threshold && b'.openDuration == b.openDuration
            && b'.consecutiveFailures == FailuresSinceSuccess(events, b.consecutiveFailures)
    decreases |events|
  {
    if events != [] {
      PlayKeepsConsistent(Step(b, events[0]), events[1..]);
    }
  }

  // ---- Admission told by the trace ----

  lemma {:induction false} PlayAppend(b: Breaker, xs: seq<Event>, ys: seq<Event>)
    ensures Play(b, xs + ys) == Play(Play(b, xs), ys)
    decreases |xs|
  {
    if xs == [] {
      assert xs + ys == ys;
    } else {
      assert (xs + ys)[1..] == xs[1..] + ys;
      PlayAppend(Step(b, xs[0]), xs[1..], ys);
    }
  }

  lemma OneMoreEvent(b: Breaker, events: seq<Event>, e: Event)
    ensures Play(b, events + [e]) == Step(Play(b, events), e)
  {
    PlayAppend(b, events, [e]);
    assert Play(Step(Play(b, events), e), [e][1..]) == Step(Play(b, events), e);
  }

  // A breaker is closed exactly below its threshold.
  predicate ClosedBelow(b: Breaker) {
    b.state.Closed? <==> b.consecutiveFailures < b.threshold
  }

  lemma {:induction false} PlayKeepsClosedBelow(b: Breaker, events: seq<Event>)
    requires Consistent(b) && ClosedBelow(b) && b.threshold >= 1
    ensures ClosedBelow(Play(b, events))
    decreases |events|
  {
    if events != [] {
      PlayKeepsConsistent(b, events[..1]);
      assert events[..1][0] == events[0] && events[..1][1..] == [];
      PlayKeepsClosedBelow(Step(b, events[0]), events[1..]);
    }
  }

  // Over every trace from a new breaker: the circuit is closed exactly while fewer failures than the
  // threshold have been recorded since the last success, and then every call is admitted, at any time.
  lemma ClosedIff(threshold: nat, openDuration: Duration, events: seq<Event>)
    requires threshold >= 1
    ensures var b := Play(NewBreaker(threshold, openDuration), events);
            && (b.state.Closed? <==> FailuresSinceSuccess(events, 0) < threshold)
            && (FailuresSinceSuccess(events, 0) < threshold ==> forall now :: Admits(b, Acquire(now)))
  {
    PlayKeepsConsistent(NewBreaker(threshold, openDuration), events);
    PlayKeepsClosedBelow(NewBreaker(threshold, openDuration), events);
  }

  // It opens with the very failure that reaches the threshold, from that moment on, and the failure of
  // a probe opens it again.
  lemma OpensAtThreshold(threshold: nat, openDuration: Duration, events: seq<Event>, at: Timestamp)
    requires threshold >= 1
    ensures var (b, b') := (Play(NewBreaker(threshold, openDuration), events),
                            Play(NewBreaker(threshold, openDuration), events + [Failure(at)]));
            && (FailuresSinceSuccess(events, 0) + 1 < threshold ==> b'.state.Closed?)
            && (FailuresSinceSuccess(events, 0) + 1 == threshold || b.state.HalfOpen? ==> b'.state == Open(at, at + openDuration))
            && (b.state.Open? ==> b'.state == b.state)
  {
    var b := NewBreaker(threshold, openDuration);
    OneMoreEvent(b, events, Failure(at));
    ClosedIff(threshold, openDuration, events);
    PlayKeepsConsistent(b, events);
  }

  // An open circuit admits its first call at any instant from one open duration after it opened, and
  // none before, whatever was refused or recorded in between, a success excepted.
  lemma AdmittedAgainIff(threshold: nat, openDuration: Duration, events: seq<Event>, rest: seq<Event>, at: Timestamp)
    requires threshold >= 1 && Play(NewBreaker(threshold, openDuration), events).state.Open? && !Succeeds(rest)
    requires var since := Play(NewBreaker(threshold, openDuration), events).state.openedAt;
             forall e | e in rest :: e.at < since + openDuration
    ensures var b := NewBreaker(threshold, openDuration);
            && Play(b, events + rest).state == Play(b, events).state
            && (Admits(Play(b, events + rest), Acquire(at)) <==> at >= Play(b, events).state.openedAt + openDuration)
  {
    var b := NewBreaker(threshold, openDuration);
    PlayKeepsConsistent(b, events);
    OpenUntilDeadline(Play(b, events), rest);
    PlayAppend(b, events, rest);
  }

  // A threshold of zero is a threshold of one.
  lemma {:induction false} ZeroThresholdIsOne(b: Breaker, events: seq<Event>)
    requires b.threshold == 0
    ensures Play(b, events) == Play(b.(threshold := 1), events).(threshold := 0)
    decreases |events|
  {
    if events != [] {
      assert Step(b, events[0]) == Step(b.(threshold := 1), events[0]).(threshold := 0);
      PlayKeepsLimits(b, events[..1]);
      PlayKeepsLimits(b.(threshold := 1), events[..1]);
      ZeroThresholdIsOne(Step(b, events[0]), events[1..]);
      assert Step(b, events[0]).(threshold := 1) == Step(b.(threshold := 1), events[0]);
    }
  }

  // A success closes the circuit, whatever came before.
  lemma SuccessCloses(threshold: nat, openDuration: Duration, events: seq<Event>, at: Timestamp)
    ensures Play(NewBreaker(threshold, openDuration), events + [Success(at)]) == NewBreaker(threshold, openDuration)
  {
    OneMoreEvent(NewBreaker(threshold, openDuration), events, Success(at));
    PlayKeepsLimits(NewBreaker(threshold, openDuration), events);
  }

  lemma {:induction false} PlayKeepsLimits(b: Breaker, events: seq<Event>)
    ensures Play(b, events).threshold == b.threshold && Play(b, events).openDuration == b.openDuration
    decreases |events|
  {
    if events != [] {
      PlayKeepsLimits(Step(b, events[0]), events[1..]);
    }
  }

  // ---- Admission after opening ----

  predicate Succeeds(events: seq<Event>) {
    exists e | e in events :: e.Success?
  }

  predicate Monotone(events: seq<Event>) {
    forall i, j | 0 <= i < j < |events| :: events[i].at <= events[j].at
  }

  // While open, without a success, nothing that happens before the deadline changes the circuit.
  lemma {:induction false} OpenUntilDeadline(b: Breaker, events: seq<Event>)
    requires Consistent(b) && b.state.Open? && !Succeeds(events)
    requires forall e | e in events :: e.at < b.retryDeadline.value
    ensures Play(b, events).state == b.state && Play(b, events).retryDeadline == b.retryDeadline
    decreases |events|
  {
    if events != [] {
      assert events[0] in events && !events[0].Success?;
      assert !Succeeds(events[1..]) by { assert forall e | e in events[1..] :: e in events; }
      OpenUntilDeadline(Step(b, events[0]), events[1..]);
    }
  }

  // After HalfOpen admission every acquire is refused until an outcome is recorded.
  lemma {:induction false} OneProbe(b: Breaker, events: seq<Event>)
    requires b.state.HalfOpen? && forall e | e in events :: e.Acquire?
    ensures Play(b, events) == b
    ensures forall now :: !Admits(Play(b, events), Acquire(now))
    decreases |events|
  {
    if events != [] {
      assert events[0] in events;
      assert Step(b, events[0]) == b;
      OneProbe(b, events[1..]);
    }
  }

  // If the first failure opens the circuit and no success follows, the next admission is at least
  // `openDuration` later, on any trace with a monotone clock.
  lemma OpenedMeansWait(b: Breaker, events: seq<Event>, probe: Event)
    requires Consistent(b) && !b.state.Open? && events != [] && events[0].Failure? && Step(b, events[0]).state.Open?
    requires !Succeeds(events) && Monotone(events + [probe])
    requires Admits(Play(b, events), probe)
    ensures probe.at >= events[0].at + b.openDuration
  {
    var tripped, rest := Step(b, events[0]), events[1..];
    if probe.at < tripped.retryDeadline.value {
      forall e | e in rest ensures e.at < tripped.retryDeadline.value && e in events {
        var i :| 0 <= i < |rest| && rest[i] == e;
        assert (events + [probe])[i + 1] == e && (events + [probe])[|events|] == probe;
      }
      OpenUntilDeadline(tripped, rest);
    }
  }

  // Two successive probes with no success between them are at least `openDuration` apart.
  lemma {:induction false} ProbesAreSpaced(b: Breaker, since: Timestamp, events: seq<Event>, probe: Event)
    requires Consistent(b) && b.state.HalfOpen?
    requires !Succeeds(events) && Monotone(events + [probe])
    requires forall e | e in events :: since <= e.at
    requires Admits(Play(b, events), probe)
    ensures probe.at >= since + b.openDuration
    decreases |events|
  {
    assert events != [];
    assert events[0] in events && !events[0].Success?;
    if events[0].Failure? {
      OpenedMeansWait(b, events, probe);
    } else {
      assert (events + [probe])[1..] == events[1..] + [probe];
      assert !Succeeds(events[1..]) by { assert forall e | e in events[1..] :: e in events; }
      ProbesAreSpaced(b, since, events[1..], probe);
    }
  }
}

/** The mutable breaker. */
module CircuitBreakers {
  import opened Wrappers
  import opened Core
  import opened CircuitBreaking

  class CircuitBreaker {
    const failureThreshold: nat
    const openDuration: Duration
    var state: CircuitState
    var consecutiveFailures: nat
    var retryDeadline: Option<Timestamp>

    ghost function Value(): Breaker
      reads this
    {
      Breaker(state, consecutiveFailures, retryDeadline, failureThreshold, openDuration)
    }

    constructor (failureThreshold: nat, openDuration: Duration)
      ensures Value() == NewBreaker(failureThreshold, openDuration)
    {
      this.failureThreshold, this.openDuration := failureThreshold, openDuration;
      state, consecutiveFailures, retryDeadline := Closed, 0, None;
    }

    method Acquire(now: Timestamp) returns (admitted: bool)
      modifies this
      ensures (Value(), admitted) == old(Value()).Acquire(now)
    {
      var elapsed := retryDeadline.None? || now >= retryDeadline.value;
      var toHalfOpen := false;
      match state {
        case Closed => admitted := true;
        case HalfOpen => admitted := false;
        case Open(_, _) =>
          toHalfOpen := elapsed;
          admitted := elapsed;
      }
      if toHalfOpen {
        state := HalfOpen;
        retryDeadline := None;
      }
    }

    method RecordSuccess()
      modifies this
      ensures Value() == old(Value()).RecordSuccess()
    {
      state := Closed;
      consecutiveFailures := 0;
      retryDeadline := None;
    }

    method RecordFailure(now: Timestamp)
      modifies this
      ensures Value() == old(Value()).RecordFailure(now)
    {
      consecutiveFailures := consecutiveFailures + 1;
      var shouldOpen;
      match state {
        case Closed => shouldOpen := consecutiveFailures >= failureThreshold;
        case HalfOpen => shouldOpen := true;
        case Open(_, _) => shouldOpen := false;
      }
      if shouldOpen {
        state := Open(now, now + openDuration);
        retryDeadline := Some(now + openDuration);
      }
    }
  }
}
