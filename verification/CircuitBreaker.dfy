/** The per-backend circuit breaker: a lazily updated timed state machine, and what it amounts to. */
module CircuitBreaker {
  import opened Common

  datatype CircuitState = Closed | Open | HalfOpen

  datatype Breaker = Breaker(state: CircuitState, failures: nat, openedAt: Option<real>)

  /** A call outcome, or a look at the state; failures and looks read the clock. */
  datatype Event = Succeeded | Failed(at: real) | Polled(at: real)

  const FRESH := Breaker(Closed, 0, None)

  /** The `state` property at time `now`, with its lazy change from open to half-open. */
  function Polling(b: Breaker, duration: real, now: real): Breaker {
    if b.state.Open? && b.openedAt.Some? && now - b.openedAt.value >= duration then b.(state := HalfOpen)
    else b
  }

  function Step(threshold: int, duration: real, b: Breaker, e: Event): Breaker {
    match e
    case Polled(now) => Polling(b, duration, now)
    case Succeeded => Breaker(Closed, 0, None)
    case Failed(now) =>
      if b.state.HalfOpen? || b.failures + 1 >= threshold then Breaker(Open, b.failures + 1, Some(now))
      else b.(failures := b.failures + 1)
  }

  function Run(threshold: int, duration: real, trace: seq<Event>): Breaker {
    if trace == [] then FRESH
    else Step(threshold, duration, Run(threshold, duration, trace[..|trace| - 1]), trace[|trace| - 1])
  }

  predicate Allows(b: Breaker, duration: real, now: real) {
    !Polling(b, duration, now).state.Open?
  }

  // ---------------------------------------------------------------- the history it stands for

  /** Failures since the last success. */
  function Trailing(trace: seq<Event>): nat {
    if trace == [] then 0
    else match trace[|trace| - 1]
      case Succeeded => 0
      case Failed(_) => Trailing(trace[..|trace| - 1]) + 1
      case Polled(_) => Trailing(trace[..|trace| - 1])
  }

  /** When the last of those failures happened. */
  function LastFailure(trace: seq<Event>): (at: Option<real>)
    ensures at.Some? <==> Trailing(trace) > 0
  {
    if trace == [] then None
    else match trace[|trace| - 1]
      case Succeeded => None
      case Failed(now) => Some(now)
      case Polled(_) => LastFailure(trace[..|trace| - 1])
  }

  /** The clock readings of the trace, and then `now`, never go back. */
  predicate Monotone(trace: seq<Event>, now: real) {
    trace != [] ==>
      var last := trace[|trace| - 1];
      if last.Succeeded? then Monotone(trace[..|trace| - 1], now)
      else last.at <= now && Monotone(trace[..|trace| - 1], last.at)
  }

  function WithoutPolls(trace: seq<Event>): seq<Event> {
    if trace == [] then []
    else
      var front := WithoutPolls(trace[..|trace| - 1]);
      if trace[|trace| - 1].Polled? then front else front + [trace[|trace| - 1]]
  }

  /** The breaker is its history: closed, with no opening time, exactly below the threshold;
      otherwise opened at the last failure, and half-open only once the cooldown is over. */
  lemma {:induction false} RunIsHistory(threshold: int, duration: real, trace: seq<Event>, now: real)
    requires Monotone(trace, now)
    ensures var b := Run(threshold, duration, trace);
            && b.failures == Trailing(trace)
            && (b.state.Closed? <==> b.failures < Max(1, threshold))
            && (b.openedAt.None? <==> b.failures < Max(1, threshold))
            && (b.openedAt.Some? ==> b.openedAt == LastFailure(trace))
            && (b.state.HalfOpen? ==> now - b.openedAt.value >= duration)
  {
    if trace != [] {
      var front, last := trace[..|trace| - 1], trace[|trace| - 1];
      RunIsHistory(threshold, duration, front, if last.Succeeded? then now else last.at);
    }
  }

  /** A request is allowed at `now` if and only if the failures since the last success are below
      the threshold or the cooldown since the last of them is over. */
  lemma {:induction false} AllowsIffHistory(threshold: int, duration: real, trace: seq<Event>, now: real)
    requires Monotone(trace, now)
    ensures Allows(Run(threshold, duration, trace), duration, now) <==>
            || Trailing(trace) < Max(1, threshold)
            || now - LastFailure(trace).value >= duration
  {
    RunIsHistory(threshold, duration, trace, now);
  }

  lemma {:induction false} WithoutPollsHistory(trace: seq<Event>, now: real)
    requires Monotone(trace, now)
    ensures Monotone(WithoutPolls(trace), now)
    ensures Trailing(WithoutPolls(trace)) == Trailing(trace)
    ensures LastFailure(WithoutPolls(trace)) == LastFailure(trace)
  {
    if trace != [] {
      var front, last := trace[..|trace| - 1], trace[|trace| - 1];
      WithoutPollsHistory(front, if last.Succeeded? then now else last.at);
      var short := WithoutPolls(front);
      if last.Polled? {
        MonotoneLater(short, last.at, now);
      } else {
        assert (short + [last])[..|short|] == short;
      }
    }
  }

  lemma {:induction false} MonotoneLater(trace: seq<Event>, now: real, later: real)
    requires Monotone(trace, now) && now <= later
    ensures Monotone(trace, later)
  {
    if trace != [] && trace[|trace| - 1].Succeeded? {
      MonotoneLater(trace[..|trace| - 1], now, later);
    }
  }

  /** Looking at the state, however often, never changes a decision. */
  lemma {:induction false} PollsDoNotMatter(threshold: int, duration: real, trace: seq<Event>, now: real)
    requires Monotone(trace, now)
    ensures Allows(Run(threshold, duration, trace), duration, now)
        <==> Allows(Run(threshold, duration, WithoutPolls(trace)), duration, now)
  {
    WithoutPollsHistory(trace, now);
    AllowsIffHistory(threshold, duration, trace, now);
    AllowsIffHistory(threshold, duration, WithoutPolls(trace), now);
  }

  // ---------------------------------------------------------------- the object

  class BackendCircuitBreaker {
    const failureThreshold: int
    const openDuration: real
    var state: CircuitState
    var failureCount: nat
    var openedAt: Option<real>
    ghost var trace: seq<Event>

    ghost predicate Valid()
      reads this
    {
      Breaker(state, failureCount, openedAt) == Run(failureThreshold, openDuration, trace)
    }

    constructor (failureThreshold: int, openDuration: real)
      ensures Valid() && trace == []
      ensures this.failureThreshold == failureThreshold && this.openDuration == openDuration
    {
      this.failureThreshold := failureThreshold;
      this.openDuration := openDuration;
      state, failureCount, openedAt, trace := Closed, 0, None, [];
    }

    ghost method Log(e: Event)
      modifies this`trace
      ensures trace == old(trace) + [e]
      ensures Run(failureThreshold, openDuration, trace)
           == Step(failureThreshold, openDuration, Run(failureThreshold, openDuration, old(trace)), e)
    {
      trace := trace + [e];
      assert trace[..|trace| - 1] == old(trace);
    }

    method State(now: real) returns (s: CircuitState)
      requires Valid()
      modifies this
      ensures Valid() && trace == old(trace) + [Polled(now)] && s == state
    {
      if state.Open? && openedAt.Some? && now - openedAt.value >= openDuration {
        state := HalfOpen;
      }
      Log(Polled(now));
      s := state;
    }

    method AllowRequest(now: real) returns (allowed: bool)
      requires Valid() && Monotone(trace, now)
      modifies this
      ensures Valid() && trace == old(trace) + [Polled(now)]
      ensures allowed <==> || Trailing(old(trace)) < Max(1, failureThreshold)
                           || now - LastFailure(old(trace)).value >= openDuration
    {
      AllowsIffHistory(failureThreshold, openDuration, trace, now);
      var s := State(now);
      assert trace[..|trace| - 1] == old(trace);
      allowed := !s.Open?;
    }

    method RecordSuccess()
      requires Valid()
      modifies this
      ensures Valid() && trace == old(trace) + [Succeeded]
    {
      failureCount := 0;
      state := Closed;
      openedAt := None;
      Log(Succeeded);
    }

    method RecordFailure(now: real)
      requires Valid()
      modifies this
      ensures Valid() && trace == old(trace) + [Failed(now)]
    {
      failureCount := failureCount + 1;
      if state.HalfOpen? {
        state, openedAt := Open, Some(now);
      } else if failureCount >= failureThreshold {
        state, openedAt := Open, Some(now);
      }
      Log(Failed(now));
    }
  }
}
