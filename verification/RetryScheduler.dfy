/**
 Batch-mode replication: the handler that pauses every assigned partition when a message fails for
 some targets, the background task that retries those targets and resumes, and its backoff.
 */
module RetryScheduler {
  import opened Common
  import opened Consumer

  // ---------------------------------------------------------------- backoff

  function Pow2(n: nat): nat {
    if n == 0 then 1 else 2 * Pow2(n - 1)
  }

  function RetryDelay(base: real, cap: real, attempt: nat): real
    requires attempt >= 1
  {
    var grown := base * Pow2(attempt - 1) as real;
    if grown <= cap then grown else cap
  }

  /** The sleeps of attempts 1 to `n`. */
  function TotalDelay(base: real, cap: real, n: nat): real {
    if n == 0 then 0.0 else TotalDelay(base, cap, n - 1) + RetryDelay(base, cap, n)
  }

  /** The delay of attempt `n + 1` without its cap. */
  function Grown(base: real, n: nat): real {
    if n == 0 then base else Grown(base, n - 1) + Grown(base, n - 1)
  }

  lemma {:induction false} Twice(base: real, x: real, y: real)
    requires y == 2.0 * x
    ensures base * y == base * x + base * x
  {
  }

  lemma {:induction false} GrownIs(base: real, n: nat)
    ensures Grown(base, n) == base * Pow2(n) as real
  {
    if n > 0 {
      GrownIs(base, n - 1);
      Twice(base, Pow2(n - 1) as real, Pow2(n) as real);
    }
  }

  lemma {:induction false} GrownSign(base: real, n: nat)
    requires base >= 0.0
    ensures Grown(base, n) >= 0.0
  {
    if n > 0 {
      GrownSign(base, n - 1);
    }
  }

  lemma {:induction false} DelayIs(base: real, cap: real, attempt: nat)
    requires attempt >= 1
    ensures RetryDelay(base, cap, attempt) ==
            if Grown(base, attempt - 1) <= cap then Grown(base, attempt - 1) else cap
  {
    GrownIs(base, attempt - 1);
  }

  /** Delays never shrink and never exceed the cap. */
  lemma {:induction false} DelayGrows(base: real, cap: real, attempt: nat)
    requires base >= 0.0 && attempt >= 1
    ensures RetryDelay(base, cap, attempt) <= RetryDelay(base, cap, attempt + 1) <= cap
  {
    DelayIs(base, cap, attempt);
    DelayIs(base, cap, attempt + 1);
    GrownSign(base, attempt - 1);
  }

  lemma {:induction false} AddDelay(total: real, delay: real, grown: real, base: real)
    requires total <= grown - base && delay <= grown
    ensures total + delay <= grown + grown - base
  {
  }

  lemma {:induction false} TotalDelayGrown(base: real, cap: real, n: nat)
    ensures TotalDelay(base, cap, n) <= Grown(base, n) - base
  {
    if n > 0 {
      TotalDelayGrown(base, cap, n - 1);
      DelayIs(base, cap, n);
      AddDelay(TotalDelay(base, cap, n - 1), RetryDelay(base, cap, n), Grown(base, n - 1), base);
    }
  }

  /** The delay of an attempt is the base doubled for each attempt before it, or the cap if that is less. */
  lemma {:induction false} DelayDoubles(base: real, cap: real, attempt: nat)
    requires attempt >= 1
    ensures attempt == 1 ==> RetryDelay(base, cap, attempt) == if base <= cap then base else cap
    ensures RetryDelay(base, cap, attempt) < cap ==>
              RetryDelay(base, cap, attempt + 1) ==
              var doubled := RetryDelay(base, cap, attempt) + RetryDelay(base, cap, attempt);
              if doubled <= cap then doubled else cap
    ensures base >= 0.0 && RetryDelay(base, cap, attempt) == cap ==> RetryDelay(base, cap, attempt + 1) == cap
  {
    DelayIs(base, cap, attempt);
    DelayIs(base, cap, attempt + 1);
    if base >= 0.0 {
      GrownSign(base, attempt - 1);
    }
  }

  /** Before the cap is reached the waiting is exactly d * (2^n - 1). */
  lemma {:induction false} TotalDelayExact(base: real, cap: real, n: nat)
    requires base >= 0.0 && n >= 1 && RetryDelay(base, cap, n) < cap
    ensures TotalDelay(base, cap, n) == base * Pow2(n) as real - base
  {
    GrownIs(base, n);
    UncappedTotal(base, cap, n);
  }

  lemma {:induction false} UncappedTotal(base: real, cap: real, n: nat)
    requires base >= 0.0 && n >= 1 && RetryDelay(base, cap, n) < cap
    ensures TotalDelay(base, cap, n) == Grown(base, n) - base
  {
    DelayIs(base, cap, n);
    if n > 1 {
      DelayIs(base, cap, n - 1);
      GrownSign(base, n - 2);
      UncappedTotal(base, cap, n - 1);
    }
  }

  /** `n` caps. */
  lemma {:induction false} OneMoreCap(cap: real, n: nat)
    ensures (n + 1) as real * cap == n as real * cap + cap
  {
  }

  lemma {:induction false} TotalDelayCapped(base: real, cap: real, n: nat)
    ensures TotalDelay(base, cap, n) <= n as real * cap
  {
    if n > 0 {
      TotalDelayCapped(base, cap, n - 1);
      OneMoreCap(cap, n - 1);
    }
  }

  /** The waiting of one task is at most d * (2^n - 1) and at most n caps. */
  lemma {:induction false} TotalDelayBound(base: real, cap: real, n: nat)
    ensures TotalDelay(base, cap, n) <= base * Pow2(n) as real - base
    ensures TotalDelay(base, cap, n) <= n as real * cap
  {
    TotalDelayGrown(base, cap, n);
    GrownIs(base, n);
    TotalDelayCapped(base, cap, n);
  }

  // ---------------------------------------------------------------- one round of targets

  /** How replicating a message to one target ends. */
  datatype Attempt = Replicated | PermanentError | TransientError

  /** A try of a target within a round; a target listed more than once is tried once for each copy. */
  datatype Try = Try(target: string, copy: nat)

  /** How the tries of one round end, and how those of a whole task do, by attempt.  What is not
      listed succeeds. */
  type Round = map<Try, Attempt>
  type Rounds = map<nat, Round>

  function EndOf(ends: Round, target: string, copy: nat): Attempt {
    if Try(target, copy) in ends then ends[Try(target, copy)] else Replicated
  }

  function Times(targets: seq<string>, target: string): nat {
    if targets == [] then 0
    else Times(targets[..|targets| - 1], target) + if targets[|targets| - 1] == target then 1 else 0
  }

  /** The end of the try at place `n` of the list. */
  function EndAt(ends: Round, targets: seq<string>, n: nat): Attempt
    requires n < |targets|
  {
    EndOf(ends, targets[n], Times(targets[..n], targets[n]))
  }

  function RoundOf(ends: Rounds, attempt: nat): Round {
    if attempt in ends then ends[attempt] else map[]
  }

  datatype Record = Record(target: string, outcome: Outcome)

  function RecordOf(target: string, a: Attempt): Record
    requires !a.TransientError?
  {
    Record(target, if a.Replicated? then Success else SkippedPermanent)
  }

  /** The targets of a message that the handler must leave to a task: known to the pool, and failed
      transiently. */
  function FirstFailed(pool: set<string>, targets: seq<string>, ends: Round): seq<string> {
    if targets == [] then []
    else
      var n := |targets| - 1;
      FirstFailed(pool, targets[..n], ends)
      + if targets[n] in pool && EndAt(ends, targets, n).TransientError? then [targets[n]] else []
  }

  /** The outcomes the handler records; a target the pool does not know is poison. */
  function FirstSettled(pool: set<string>, targets: seq<string>, ends: Round): seq<Record> {
    if targets == [] then []
    else
      var n := |targets| - 1;
      FirstSettled(pool, targets[..n], ends)
      + if targets[n] !in pool then [Record(targets[n], SkippedPoison)]
        else if EndAt(ends, targets, n).TransientError? then []
        else [RecordOf(targets[n], EndAt(ends, targets, n))]
  }

  /** The targets of a retry round that must be tried again. */
  function StillFailed(targets: seq<string>, ends: Round): seq<string> {
    if targets == [] then []
    else
      var n := |targets| - 1;
      StillFailed(targets[..n], ends) + if EndAt(ends, targets, n).TransientError? then [targets[n]] else []
  }

  /** The outcomes a retry round records. */
  function Settled(targets: seq<string>, ends: Round): seq<Record> {
    if targets == [] then []
    else
      var n := |targets| - 1;
      Settled(targets[..n], ends)
      + if EndAt(ends, targets, n).TransientError? then [] else [RecordOf(targets[n], EndAt(ends, targets, n))]
  }

  function GivenUp(targets: seq<string>): seq<Record> {
    if targets == [] then []
    else GivenUp(targets[..|targets| - 1]) + [Record(targets[|targets| - 1], SkippedMaxRetries)]
  }

  lemma {:induction false} EndAtFront(ends: Round, targets: seq<string>, i: nat)
    requires i < |targets|
    ensures targets[..i + 1][..i] == targets[..i]
    ensures EndAt(ends, targets[..i + 1], i) == EndAt(ends, targets, i)
  {
    assert targets[..i + 1][..i] == targets[..i];
  }

  /** Try each target once, as the handler does. */
  method TryTargets(pool: set<string>, targets: seq<string>, ends: Round)
      returns (failed: seq<string>, records: seq<Record>)
    ensures failed == FirstFailed(pool, targets, ends) && records == FirstSettled(pool, targets, ends)
  {
    failed, records := [], [];
    for i := 0 to |targets|
      invariant failed == FirstFailed(pool, targets[..i], ends)
      invariant records == FirstSettled(pool, targets[..i], ends)
    {
      EndAtFront(ends, targets, i);
      if targets[i] !in pool {
        records := records + [Record(targets[i], SkippedPoison)];
      } else if EndAt(ends, targets, i).TransientError? {
        failed := failed + [targets[i]];
      } else {
        records := records + [RecordOf(targets[i], EndAt(ends, targets, i))];
      }
    }
    assert targets[..|targets|] == targets;
  }

  /** Try each failed target once more, as the task does; the pool knows them all. */
  method RetryTargets(pool: set<string>, targets: seq<string>, ends: Round)
      returns (failed: seq<string>, records: seq<Record>)
    requires forall t :: t in targets ==> t in pool
    ensures failed == StillFailed(targets, ends) && records == Settled(targets, ends)
    ensures forall t :: t in failed ==> t in pool
  {
    failed, records := [], [];
    for i := 0 to |targets|
      invariant failed == StillFailed(targets[..i], ends)
      invariant records == Settled(targets[..i], ends)
      invariant forall t :: t in failed ==> t in pool
    {
      EndAtFront(ends, targets, i);
      if EndAt(ends, targets, i).TransientError? {
        failed := failed + [targets[i]];
      } else {
        records := records + [RecordOf(targets[i], EndAt(ends, targets, i))];
      }
    }
    assert targets[..|targets|] == targets;
  }

  method SkipAll(targets: seq<string>) returns (records: seq<Record>)
    ensures records == GivenUp(targets)
  {
    records := [];
    for i := 0 to |targets|
      invariant records == GivenUp(targets[..i])
    {
      assert targets[..i + 1][..i] == targets[..i];
      records := records + [Record(targets[i], SkippedMaxRetries)];
    }
    assert targets[..|targets|] == targets;
  }

  // ---------------------------------------------------------------- the whole task

  /** The records of a task that never fails to seek or resume: `ends[a]` are the ends of attempt
      number `a`. */
  function TaskRecords(failed: seq<string>, ends: Rounds, attempt: nat, maxRetries: nat): seq<Record>
    decreases maxRetries + 1 - attempt
  {
    if attempt > maxRetries then GivenUp(failed)
    else
      var still := StillFailed(failed, RoundOf(ends, attempt));
      Settled(failed, RoundOf(ends, attempt))
      + if still == [] then [] else TaskRecords(still, ends, attempt + 1, maxRetries)
  }

  /** The task runs out of attempts rather than settling every target. */
  predicate Exhausts(failed: seq<string>, ends: Rounds, attempt: nat, maxRetries: nat)
    decreases maxRetries + 1 - attempt
  {
    attempt > maxRetries ||
    (StillFailed(failed, RoundOf(ends, attempt)) != []
     && Exhausts(StillFailed(failed, RoundOf(ends, attempt)), ends, attempt + 1, maxRetries))
  }

  /** The task is on its way to the records `all`, giving up if `gone`. */
  predicate Ahead(failed: seq<string>, ends: Rounds, attempt: nat, maxRetries: nat,
                  records: seq<Record>, gone: bool, all: seq<Record>)
  {
    && gone == Exhausts(failed, ends, attempt, maxRetries)
    && all == records + TaskRecords(failed, ends, attempt, maxRetries)
  }

  /** One turn leaves the end of the task the same. */
  lemma {:induction false} AheadStep(failed: seq<string>, ends: Rounds, attempt: nat, maxRetries: nat,
                  records: seq<Record>, gone: bool, all: seq<Record>)
    requires Ahead(failed, ends, attempt, maxRetries, records, gone, all)
    ensures attempt > maxRetries ==> gone && all == records + GivenUp(failed)
    ensures var still := StillFailed(failed, RoundOf(ends, attempt));
            var after := records + Settled(failed, RoundOf(ends, attempt));
            attempt <= maxRetries ==>
              if still == [] then !gone && all == after
              else Ahead(still, ends, attempt + 1, maxRetries, after, gone, all)
  {
    if attempt <= maxRetries {
      var still, settled := StillFailed(failed, RoundOf(ends, attempt)), Settled(failed, RoundOf(ends, attempt));
      if still == [] {
        Regroup(settled, [], []);
      } else {
        Regroup(records, settled, TaskRecords(still, ends, attempt + 1, maxRetries));
      }
    }
  }

  function Count(records: seq<Record>, target: string): nat {
    if records == [] then 0
    else Count(records[..|records| - 1], target) + if records[|records| - 1].target == target then 1 else 0
  }

  lemma {:induction false} CountSplit(a: seq<Record>, b: seq<Record>, target: string)
    ensures Count(a + b, target) == Count(a, target) + Count(b, target)
  {
    if b == [] {
      assert a + b == a;
    } else {
      CountSplit(a, b[..|b| - 1], target);
      assert (a + b)[..|a + b| - 1] == a + b[..|b| - 1];
    }
  }

  lemma {:induction false} TimesAppend(a: seq<string>, x: string, target: string)
    ensures Times(a + [x], target) == Times(a, target) + if x == target then 1 else 0
  {
    assert (a + [x])[..|a|] == a;
  }

  lemma {:induction false} CountAppend(a: seq<Record>, x: Record, target: string)
    ensures Count(a + [x], target) == Count(a, target) + if x.target == target then 1 else 0
  {
    assert (a + [x])[..|a|] == a;
  }

  lemma {:induction false} RoundConserves(targets: seq<string>, ends: Round, target: string)
    ensures Count(Settled(targets, ends), target) + Times(StillFailed(targets, ends), target)
            == Times(targets, target)
  {
    if targets != [] {
      var n := |targets| - 1;
      RoundConserves(targets[..n], ends, target);
      var settled, still := Settled(targets[..n], ends), StillFailed(targets[..n], ends);
      if EndAt(ends, targets, n).TransientError? {
        TimesAppend(still, targets[n], target);
        assert settled + [] == settled;
      } else {
        CountAppend(settled, RecordOf(targets[n], EndAt(ends, targets, n)), target);
        assert still + [] == still;
      }
    }
  }

  /** The handler shares a message's targets out between what it records and what it leaves to the
      task, and leaves it only targets the pool knows. */
  lemma {:induction false} HandlerConserves(pool: set<string>, targets: seq<string>, ends: Round, target: string)
    ensures Count(FirstSettled(pool, targets, ends), target) + Times(FirstFailed(pool, targets, ends), target)
            == Times(targets, target)
    ensures target in FirstFailed(pool, targets, ends) ==> target in pool
  {
    if targets != [] {
      var n := |targets| - 1;
      HandlerConserves(pool, targets[..n], ends, target);
      var settled, failed := FirstSettled(pool, targets[..n], ends), FirstFailed(pool, targets[..n], ends);
      if targets[n] !in pool {
        CountAppend(settled, Record(targets[n], SkippedPoison), target);
        assert failed + [] == failed;
      } else if EndAt(ends, targets, n).TransientError? {
        TimesAppend(failed, targets[n], target);
        assert settled + [] == settled;
      } else {
        CountAppend(settled, RecordOf(targets[n], EndAt(ends, targets, n)), target);
        assert failed + [] == failed;
      }
    }
  }

  lemma {:induction false} GivenUpConserves(targets: seq<string>, target: string)
    ensures Count(GivenUp(targets), target) == Times(targets, target)
  {
    if targets != [] {
      var n := |targets| - 1;
      GivenUpConserves(targets[..n], target);
      CountAppend(GivenUp(targets[..n]), Record(targets[n], SkippedMaxRetries), target);
    }
  }

  /** The failed targets are shared out among succeeded, skipped permanently and skipped after the
      last retry: each is recorded exactly as often as it was handed to the task. */
  lemma {:induction false} TaskConserves(failed: seq<string>, ends: Rounds, attempt: nat,
                                         maxRetries: nat, target: string)
    ensures Count(TaskRecords(failed, ends, attempt, maxRetries), target) == Times(failed, target)
    decreases maxRetries + 1 - attempt
  {
    if attempt > maxRetries {
      GivenUpConserves(failed, target);
    } else {
      var still := StillFailed(failed, RoundOf(ends, attempt));
      RoundConserves(failed, RoundOf(ends, attempt), target);
      if still == [] {
        assert Settled(failed, RoundOf(ends, attempt)) + [] == Settled(failed, RoundOf(ends, attempt));
      } else {
        TaskConserves(still, ends, attempt + 1, maxRetries, target);
        CountSplit(Settled(failed, RoundOf(ends, attempt)), TaskRecords(still, ends, attempt + 1, maxRetries), target);
      }
    }
  }

  predicate Distinct(targets: seq<string>) {
    forall i, j :: 0 <= i < j < |targets| ==> targets[i] != targets[j]
  }

  lemma {:induction false} AbsentTimes(targets: seq<string>, t: string)
    requires t !in targets
    ensures Times(targets, t) == 0
  {
    if targets != [] {
      AbsentTimes(targets[..|targets| - 1], t);
    }
  }

  lemma {:induction false} LastOfDistinct(targets: seq<string>)
    requires Distinct(targets) && targets != []
    ensures var n := |targets| - 1;
            && Distinct(targets[..n]) && targets[n] !in targets[..n]
            && targets == targets[..n] + [targets[n]]
            && Times(targets[..n], targets[n]) == 0
  {
    AbsentTimes(targets[..|targets| - 1], targets[|targets| - 1]);
  }

  lemma {:induction false} StillFailedByName(targets: seq<string>, ends: Round, t: string)
    requires Distinct(targets)
    ensures t in StillFailed(targets, ends) <==> t in targets && EndOf(ends, t, 0).TransientError?
  {
    if targets != [] {
      LastOfDistinct(targets);
      StillFailedByName(targets[..|targets| - 1], ends, t);
    }
  }

  lemma {:induction false} StillFailedDistinct(targets: seq<string>, ends: Round)
    requires Distinct(targets)
    ensures Distinct(StillFailed(targets, ends))
  {
    if targets != [] {
      var n := |targets| - 1;
      LastOfDistinct(targets);
      StillFailedDistinct(targets[..n], ends);
      StillFailedByName(targets[..n], ends, targets[n]);
    }
  }

  /** What a retry round records of distinct targets: success of those whose try replicated, a skip of
      those whose try failed permanently. */
  lemma {:induction false} SettledByName(targets: seq<string>, ends: Round, t: string, outcome: Outcome)
    requires Distinct(targets)
    ensures Record(t, outcome) in Settled(targets, ends) <==>
            && t in targets
            && match outcome
               case Success => EndOf(ends, t, 0).Replicated?
               case SkippedPermanent => EndOf(ends, t, 0).PermanentError?
               case _ => false
  {
    if targets != [] {
      LastOfDistinct(targets);
      SettledByName(targets[..|targets| - 1], ends, t, outcome);
    }
  }

  /** What the handler records of distinct targets, and what it leaves to the task. */
  lemma {:induction false} HandlerByName(pool: set<string>, targets: seq<string>, ends: Round, t: string, outcome: Outcome)
    requires Distinct(targets)
    ensures Record(t, outcome) in FirstSettled(pool, targets, ends) <==>
            && t in targets
            && match outcome
               case Success => t in pool && EndOf(ends, t, 0).Replicated?
               case SkippedPermanent => t in pool && EndOf(ends, t, 0).PermanentError?
               case SkippedPoison => t !in pool
               case SkippedMaxRetries => false
    ensures t in FirstFailed(pool, targets, ends) <==> t in targets && t in pool && EndOf(ends, t, 0).TransientError?
  {
    if targets != [] {
      LastOfDistinct(targets);
      HandlerByName(pool, targets[..|targets| - 1], ends, t, outcome);
    }
  }

  /** A retry round keeps the order of its targets, repeated ones included: place `i` is the next entry
      of the records, with its own outcome, or of the targets left over, and there is nothing else. */
  lemma {:induction false} RoundInOrder(targets: seq<string>, ends: Round, i: nat)
    requires i < |targets|
    ensures |StillFailed(targets, ends)| + |Settled(targets, ends)| == |targets|
    ensures var failed, records := |StillFailed(targets[..i], ends)|, |Settled(targets[..i], ends)|;
            match EndAt(ends, targets, i)
            case TransientError =>
              failed < |StillFailed(targets, ends)| && StillFailed(targets, ends)[failed] == targets[i]
            case Replicated =>
              records < |Settled(targets, ends)| && Settled(targets, ends)[records] == Record(targets[i], Success)
            case PermanentError =>
              && records < |Settled(targets, ends)|
              && Settled(targets, ends)[records] == Record(targets[i], SkippedPermanent)
  {
    var n := |targets| - 1;
    if n > 0 {
      RoundInOrder(targets[..n], ends, if i < n then i else 0);
    }
    if i < n {
      assert targets[..n][..i] == targets[..i];
    }
  }

  /** The same of the handler. */
  lemma {:induction false} HandlerInOrder(pool: set<string>, targets: seq<string>, ends: Round, i: nat)
    requires i < |targets|
    ensures |FirstFailed(pool, targets, ends)| + |FirstSettled(pool, targets, ends)| == |targets|
    ensures var failed := |FirstFailed(pool, targets[..i], ends)|;
            var records := |FirstSettled(pool, targets[..i], ends)|;
            var settled := FirstSettled(pool, targets, ends);
            if targets[i] !in pool then
              records < |settled| && settled[records] == Record(targets[i], SkippedPoison)
            else match EndAt(ends, targets, i)
              case TransientError =>
                && failed < |FirstFailed(pool, targets, ends)|
                && FirstFailed(pool, targets, ends)[failed] == targets[i]
              case Replicated => records < |settled| && settled[records] == Record(targets[i], Success)
              case PermanentError => records < |settled| && settled[records] == Record(targets[i], SkippedPermanent)
  {
    var n := |targets| - 1;
    if n > 0 {
      HandlerInOrder(pool, targets[..n], ends, if i < n then i else 0);
    }
    if i < n {
      assert targets[..n][..i] == targets[..i];
    }
  }

  /** How the first attempt ends that does not fail transiently, if there is one among those left. */
  function Deciding(target: string, ends: Rounds, attempt: nat, maxRetries: nat): Option<Attempt>
    decreases maxRetries + 1 - attempt
  {
    if attempt > maxRetries then None
    else
      var end := EndOf(RoundOf(ends, attempt), target, 0);
      if end.TransientError? then Deciding(target, ends, attempt + 1, maxRetries) else Some(end)
  }

  lemma {:induction false} GivenUpFates(targets: seq<string>, r: Record)
    ensures r in GivenUp(targets) <==> r.target in targets && r.outcome == SkippedMaxRetries
  {
    if targets != [] {
      GivenUpFates(targets[..|targets| - 1], r);
      assert targets == targets[..|targets| - 1] + [targets[|targets| - 1]];
    }
  }

  /** What a task records of distinct targets: each target's first attempt that does not fail
      transiently decides, whatever the other targets do; without one it is given up. */
  lemma {:induction false} TaskFates(failed: seq<string>, ends: Rounds, attempt: nat, maxRetries: nat,
                                     t: string, outcome: Outcome)
    requires Distinct(failed)
    ensures Record(t, outcome) in TaskRecords(failed, ends, attempt, maxRetries) <==>
            && t in failed
            && match outcome
               case Success => Deciding(t, ends, attempt, maxRetries) == Some(Replicated)
               case SkippedPermanent => Deciding(t, ends, attempt, maxRetries) == Some(PermanentError)
               case SkippedMaxRetries => Deciding(t, ends, attempt, maxRetries) == None
               case SkippedPoison => false
    decreases maxRetries + 1 - attempt
  {
    if attempt > maxRetries {
      GivenUpFates(failed, Record(t, outcome));
    } else {
      var still := StillFailed(failed, RoundOf(ends, attempt));
      StillFailedByName(failed, RoundOf(ends, attempt), t);
      SettledByName(failed, RoundOf(ends, attempt), t, outcome);
      StillFailedDistinct(failed, RoundOf(ends, attempt));
      if still != [] {
        TaskFates(still, ends, attempt + 1, maxRetries, t, outcome);
      }
    }
  }

  /** A task gives up exactly when some target has no deciding attempt. */
  lemma {:induction false} ExhaustsIff(failed: seq<string>, ends: Rounds, attempt: nat, maxRetries: nat)
    requires Distinct(failed) && failed != []
    ensures Exhausts(failed, ends, attempt, maxRetries) <==>
            exists t :: t in failed && Deciding(t, ends, attempt, maxRetries) == None
    decreases maxRetries + 1 - attempt
  {
    assert failed[0] in failed;
    if attempt <= maxRetries {
      var still := StillFailed(failed, RoundOf(ends, attempt));
      forall t ensures t in still <==> t in failed && EndOf(RoundOf(ends, attempt), t, 0).TransientError? {
        StillFailedByName(failed, RoundOf(ends, attempt), t);
      }
      StillFailedDistinct(failed, RoundOf(ends, attempt));
      if still != [] {
        ExhaustsIff(still, ends, attempt + 1, maxRetries);
      } else {
        assert forall t :: t in failed ==> t !in still;
      }
    }
  }

  /** The attempts a task makes. */
  function AttemptsMade(failed: seq<string>, ends: Rounds, attempt: nat, maxRetries: nat): nat
    decreases maxRetries + 1 - attempt
  {
    if attempt > maxRetries then 0
    else
      var still := StillFailed(failed, RoundOf(ends, attempt));
      1 + if still == [] then 0 else AttemptsMade(still, ends, attempt + 1, maxRetries)
  }

  /** The attempts one target needs, if no others are to be waited for. */
  function AttemptsNeeded(target: string, ends: Rounds, attempt: nat, maxRetries: nat): nat
    decreases maxRetries + 1 - attempt
  {
    if attempt > maxRetries then 0
    else if EndOf(RoundOf(ends, attempt), target, 0).TransientError? then
      1 + AttemptsNeeded(target, ends, attempt + 1, maxRetries)
    else 1
  }

  /** A task makes exactly as many attempts as the target that needs the most of them. */
  lemma {:induction false} AttemptsMadeIs(failed: seq<string>, ends: Rounds, attempt: nat, maxRetries: nat) returns (slowest: string)
    requires Distinct(failed) && failed != []
    ensures slowest in failed
    ensures AttemptsMade(failed, ends, attempt, maxRetries) == AttemptsNeeded(slowest, ends, attempt, maxRetries)
    ensures forall t :: t in failed ==>
              AttemptsNeeded(t, ends, attempt, maxRetries) <= AttemptsMade(failed, ends, attempt, maxRetries)
    ensures AttemptsMade(failed, ends, attempt, maxRetries) <= maxRetries + 1 - attempt || attempt > maxRetries
    decreases maxRetries + 1 - attempt
  {
    slowest := failed[0];
    if attempt <= maxRetries {
      var still := StillFailed(failed, RoundOf(ends, attempt));
      forall t ensures t in still <==> t in failed && EndOf(RoundOf(ends, attempt), t, 0).TransientError? {
        StillFailedByName(failed, RoundOf(ends, attempt), t);
      }
      StillFailedDistinct(failed, RoundOf(ends, attempt));
      if still != [] {
        slowest := AttemptsMadeIs(still, ends, attempt + 1, maxRetries);
      } else {
        assert forall t :: t in failed ==> t !in still;
      }
    }
  }

  // ---------------------------------------------------------------- the worker

  /** A live retry task. */
  datatype Task = Task(partition: nat, offset: nat, attempt: nat, failed: seq<string>, resumes: set<nat>)

  /** A delivered message: its targets, or poison that is skipped under one label. */
  datatype Delivery = Readable(targets: seq<string>) | Poison(reported: string)

  class BatchWorker {
    const pool: set<string>
    const partitions: set<nat>
    const maxRetries: nat
    const baseDelay: real
    const maxDelay: real
    var position: map<nat, nat>
    var paused: set<nat>
    var task: Option<Task>
    var records: seq<Record>
    /** The messages, by partition and offset, with no target left to try. */
    ghost var settled: set<(nat, nat)>

    /** Either nothing is paused and no task lives, or every assigned partition is paused for one task,
        which will resume exactly that, whose targets the pool knows and whose partition stands at or
        just past its offset; and every message below a position is settled or is the task's. */
    ghost predicate Valid()
      reads this
    {
      && position.Keys == partitions
      && (task.None? ==> paused == {})
      && (task.Some? ==>
            && paused == partitions == task.value.resumes
            && task.value.partition in partitions
            && task.value.attempt >= 1
            && (forall t :: t in task.value.failed ==> t in pool)
            && task.value.offset <= position[task.value.partition] <= task.value.offset + 1)
      && (forall p: nat, o: nat :: p in partitions && o < position[p] ==> (p, o) in settled || Tries(p, o))
    }

    /** The live task is about this message. */
    ghost predicate Tries(p: nat, o: nat)
      reads this
    {
      task.Some? && task.value.partition == p && task.value.offset == o
    }

    constructor (pool: set<string>, partitions: set<nat>, maxRetries: nat, baseDelay: real, maxDelay: real)
      ensures Valid() && task.None? && records == []
      ensures this.pool == pool && this.partitions == partitions && this.maxRetries == maxRetries
      ensures this.baseDelay == baseDelay && this.maxDelay == maxDelay
    {
      this.pool, this.partitions, this.maxRetries := pool, partitions, maxRetries;
      this.baseDelay, this.maxDelay := baseDelay, maxDelay;
      position := map p | p in partitions :: 0;
      paused, task, records, settled := {}, None, [], {};
    }

    /** Handle the next message of an unpaused partition.  No task can be live here, so at most one
        ever is; a transient failure pauses all assigned partitions and starts it. */
    method Handle(p: nat, message: Delivery, ends: Round)
      requires Valid() && p in partitions && p !in paused
      modifies this
      ensures Valid() && old(task).None?
      ensures position == old(position)[p := old(position)[p] + 1]
      ensures message.Poison? ==>
                && records == old(records) + [Record(message.reported, SkippedPoison)]
                && task.None? && settled == old(settled) + {(p, old(position)[p])}
      ensures message.Readable? ==>
                var failed := FirstFailed(pool, message.targets, ends);
                && records == old(records) + FirstSettled(pool, message.targets, ends)
                && if failed == [] then task.None? && settled == old(settled) + {(p, old(position)[p])}
                   else task == Some(Task(p, old(position)[p], 1, failed, partitions)) && settled == old(settled)
    {
      var offset := position[p];
      position := position[p := offset + 1];
      var failed: seq<string> := [];
      match message {
        case Poison(reported) =>
          records := records + [Record(reported, SkippedPoison)];
        case Readable(targets) =>
          var done;
          failed, done := TryTargets(pool, targets, ends);
          forall t | t in failed ensures t in pool {
            HandlerConserves(pool, targets, ends, t);
          }
          records := records + done;
      }
      if failed != [] {
        paused := partitions;
        task := Some(Task(p, offset, 1, failed, partitions));
      } else {
        settled := settled + {(p, offset)};
      }
    }

    /** Seek and resume all partitions of the task; a raise of either leaves everything paused. */
    method SeekAndResume(offset: nat, resume: Resumption)
      requires Valid() && task.Some? && task.value.offset <= offset <= task.value.offset + 1
      modifies this`position, this`paused, this`task, this`settled
      ensures Valid()
      ensures position == if resume.SeekRaises? then old(position)
                          else old(position)[old(task).value.partition := offset]
      ensures if resume.Fine? then
                && paused == {} && task.None?
                && settled == old(settled) + {(old(task).value.partition, old(task).value.offset)}
              else
                && paused == old(paused) && settled == old(settled)
                && task == Some(old(task).value.(attempt := old(task).value.attempt + 1))
    {
      if !resume.SeekRaises? {
        position := position[task.value.partition := offset];
      }
      if resume.Fine? {
        paused := paused - task.value.resumes;
        settled := settled + {(task.value.partition, task.value.offset)};
        task := None;
      } else {
        task := Some(task.value.(attempt := task.value.attempt + 1));
      }
    }

    /** One turn of the task's loop, after its sleep. */
    method RetryRound(ends: Round, resume: Resumption)
      requires Valid() && task.Some?
      modifies this
      ensures Valid()
      ensures var t := old(task).value;
              var still := StillFailed(t.failed, ends);
              if t.attempt > maxRetries then
                && records == old(records) + GivenUp(t.failed)
                && Left(old(position), old(settled), t, t.offset + 1, resume)
              else
                && records == old(records) + Settled(t.failed, ends)
                && if still == [] then Left(old(position), old(settled), t, t.offset, resume)
                   else
                     && position == old(position) && paused == old(paused) && settled == old(settled)
                     && task == Some(t.(attempt := t.attempt + 1, failed := still))
    {
      var t := task.value;
      if t.attempt > maxRetries {
        var skipped := SkipAll(t.failed);
        records := records + skipped;
        SeekAndResume(t.offset + 1, resume);
        return;
      }
      var still, now := RetryTargets(pool, t.failed, ends);
      records := records + now;
      if still == [] {
        SeekAndResume(t.offset, resume);
      } else {
        task := Some(t.(attempt := t.attempt + 1, failed := still));
      }
    }

    /** The task `t` is over with its partition at `offset`, or its resume raised. */
    ghost predicate Left(before: map<nat, nat>, known: set<(nat, nat)>, t: Task, offset: nat, resume: Resumption)
      reads this
    {
      && position == (if resume.SeekRaises? then before else before[t.partition := offset])
      && if resume.Fine? then paused == {} && task.None? && settled == known + {(t.partition, t.offset)}
         else settled == known && task == Some(t.(attempt := t.attempt + 1))
    }

    /** The task will end, or has ended, with the records `all` after `made` attempts, the failed
        partition standing at `offset` or just past it and every other position as it was `before`. */
    ghost predicate Heading(ends: Rounds, before: map<nat, nat>, p: nat, offset: nat,
                            gone: bool, all: seq<Record>, made: nat, rounds: nat)
      reads this
    {
      && Valid()
      && (task.None? ==>
            && records == all && position == before[p := if gone then offset + 1 else offset]
            && rounds == made <= maxRetries)
      && (task.Some? ==>
            && task.value.partition == p && task.value.offset == offset && position == before
            && task.value.attempt == rounds + 1 <= maxRetries + 1
            && made == rounds + AttemptsMade(task.value.failed, ends, rounds + 1, maxRetries)
            && Ahead(task.value.failed, ends, rounds + 1, maxRetries, records, gone, all))
    }

    /** What was slept before attempts 1 to `rounds`. */
    predicate Slept(slept: real, rounds: nat) {
      slept == TotalDelay(baseDelay, maxDelay, rounds)
    }

    /** Sleep before the attempt, if it is still to be made. */
    method Sleep(slept: real, attempt: nat) returns (after: real, rounds: nat)
      requires attempt >= 1 && Slept(slept, attempt - 1)
      ensures Slept(after, rounds) && rounds == if attempt > maxRetries then attempt - 1 else attempt
    {
      if attempt > maxRetries {
        return slept, attempt - 1;
      }
      return slept + RetryDelay(baseDelay, maxDelay, attempt), attempt;
    }

    /** A turn without a raise brings the task one attempt nearer to the same end. */
    method RetryTurn(ends: Rounds, ghost before: map<nat, nat>, ghost p: nat, ghost offset: nat,
                     ghost gone: bool, ghost all: seq<Record>, ghost made: nat, ghost rounds: nat)
      requires task.Some? && Heading(ends, before, p, offset, gone, all, made, rounds)
      modifies this
      ensures Heading(ends, before, p, offset, gone, all, made, if rounds < maxRetries then rounds + 1 else rounds)
      ensures rounds == maxRetries ==> task.None?
    {
      AheadStep(task.value.failed, ends, task.value.attempt, maxRetries, records, gone, all);
      RetryRound(RoundOf(ends, task.value.attempt), Fine);
    }

    /** The loop of the task, with the time slept and the attempts made. */
    method RunToEnd(ends: Rounds, ghost before: map<nat, nat>, ghost p: nat, ghost offset: nat,
                    ghost gone: bool, ghost all: seq<Record>, ghost made: nat) returns (slept: real, rounds: nat)
      requires task.Some? && Heading(ends, before, p, offset, gone, all, made, 0) && Slept(0.0, 0)
      modifies this
      ensures task.None? && Heading(ends, before, p, offset, gone, all, made, rounds) && Slept(slept, rounds)
    {
      slept, rounds := 0.0, 0;
      while task.Some?
        invariant Heading(ends, before, p, offset, gone, all, made, rounds) && Slept(slept, rounds)
        decreases maxRetries - rounds, task.Some?
      {
        ghost var turn := rounds;
        slept, rounds := Sleep(slept, task.value.attempt);
        RetryTurn(ends, before, p, offset, gone, all, made, turn);
      }
    }

    /** Run the task to its end, when seek and resume never raise: everything is resumed, only the
        failed partition's position has moved, to the offset after success and past it after giving
        up; the records are the task's, and the sleeps those of the attempts it makes. */
    method ScheduleGlobalRetry(ends: Rounds) returns (slept: real, rounds: nat)
      requires Valid() && task.Some? && task.value.attempt == 1
      modifies this
      ensures Valid() && task.None? && paused == {}
      ensures var t := old(task).value;
              && records == old(records) + TaskRecords(t.failed, ends, 1, maxRetries)
              && position == old(position)[t.partition :=
                   if Exhausts(t.failed, ends, 1, maxRetries) then t.offset + 1 else t.offset]
              && rounds == AttemptsMade(t.failed, ends, 1, maxRetries)
      ensures rounds <= maxRetries && slept == TotalDelay(baseDelay, maxDelay, rounds)
    {
      ghost var t := task.value;
      slept, rounds := RunToEnd(ends, position, t.partition, t.offset, Exhausts(t.failed, ends, 1, maxRetries),
                                records + TaskRecords(t.failed, ends, 1, maxRetries),
                                AttemptsMade(t.failed, ends, 1, maxRetries));
    }
  }
}
