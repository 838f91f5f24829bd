/**
 The per-backend replication worker as a step system.

 One source backend, one secondary target and one topic whose partitions are consumed by a
 subscriber with concurrency 1.  Clients write to the source and then publish; the handler and
 the background retry task replicate by copying the *current* source state.  Every backend or
 consumer call is a step of its own, so client writes interleave with a replication in flight.
 Backend faults, lost acknowledgements, consumer faults and restarts are choices of the steps.
 */
module Worker {
  import opened Common
  import opened Runs
  import opened Consumer

  type Key = string

  /** What a message asks for.  `Put` carries the ContentLength the publisher put in its metadata,
      if any; `Other` stands for the operations that leave object bodies alone. */
  datatype Op = Put(length: Option<nat>) | Delete | Other

  datatype Message = Message(key: Key, op: Op)

  /** How far one call of replicate_operation has come. */
  datatype Phase =
    | Begin
    | HeadedSource(seen: Bytes)
    | Fetching
    | Fetched(body: Bytes)
    | Measured(body: Bytes, length: nat)

  /** The handler's work on the message it was given. */
  datatype Job = Job(offset: nat, phase: Phase)

  /** A live background retry task. */
  datatype Task = Task(offset: nat, attempt: nat, phase: Phase)

  /** A partition of the topic: its log, the consumer's position and pause flag, the handler at work
      on it if any, and its live tasks. */
  datatype Partition = Partition(
    log: seq<Message>,
    position: nat,
    paused: bool,
    handling: Option<Job>,
    tasks: seq<Task>,
    outcomes: map<nat, Outcome>)
  {
    /** The handler or a task is at work on offset `o`. */
    predicate On(o: int) {
      || (handling.Some? && handling.value.offset == o)
      || (exists i :: 0 <= i < |tasks| && tasks[i].offset == o)
    }

    predicate Idle() {
      handling.None? && tasks == []
    }
  }

  datatype State = State(
    source: map<Key, Bytes>,
    target: map<Key, Bytes>,
    unpublished: map<Key, Op>,
    partitions: seq<Partition>)

  datatype Config = Config(route: Key -> nat, count: nat, maxRetries: nat, skipIfEtagMatches: bool)

  /** The kind of exception a backend call raises, as the error classifier sees it. */
  datatype Fault = NoFault | PermanentFault | TransientFault

  /** The environment's choices for one backend call.  `landed`: a call that raised took effect
      all the same.  `stored`: what a backend keeps of a body whose announced length is wrong.
      `etagsEqual`: equal bodies may still carry different ETags. */
  datatype Call = Call(fault: Fault, landed: bool, stored: Bytes, etagsEqual: bool)

  datatype Progress = Continue(phase: Phase) | Returned | Raised(permanent: bool)

  datatype Step =
    | ClientPut(key: Key, body: Bytes, announced: bool)
    | ClientDelete(key: Key)
    | Publish(key: Key)
    | PublishOther(key: Key)
    | Deliver(p: nat)
    | Poison(p: nat)
    | Handler(p: nat, call: Call)
    | Retry(p: nat, i: nat, call: Call, rewind: Resumption, rewindPermanent: bool, advance: Resumption)
    | GiveUp(p: nat, i: nat, advance: Resumption)
    | Restart(p: nat, committed: nat)

  // ---------------------------------------------------------------- replicate_operation

  function Raise(f: Fault): Progress
    requires !f.NoFault?
  {
    Raised(f.PermanentFault?)
  }

  /** What the target keeps when `body` is sent with ContentLength `length`. */
  function Stored(body: Bytes, length: nat, call: Call): Bytes {
    if |body| == length then body else call.stored
  }

  /** One backend call of replicate_operation: its progress and the target afterwards. */
  function Replicate(cfg: Config, m: Message, phase: Phase, source: map<Key, Bytes>,
                     target: map<Key, Bytes>, call: Call): (Progress, map<Key, Bytes>)
  {
    var k := m.key;
    match m.op
    case Other =>
      (if call.fault.NoFault? then Returned else Raise(call.fault), target)
    case Delete =>
      if call.fault.NoFault? then (Returned, target - {k})
      else (Raise(call.fault), if call.landed then target - {k} else target)
    case Put(length) =>
      match phase
      case Begin =>
        if !cfg.skipIfEtagMatches then (Continue(Fetching), target)
        else if !call.fault.NoFault? then (Raise(call.fault), target)
        else if k in source then (Continue(HeadedSource(source[k])), target)
        else (Continue(Fetching), target)
      case HeadedSource(seen) =>
        if !call.fault.NoFault? then (Raise(call.fault), target)
        else if k in target && target[k] == seen && call.etagsEqual then (Returned, target)
        else (Continue(Fetching), target)
      case Fetching =>
        if !call.fault.NoFault? then (Raise(call.fault), target)
        else if k in source then (Continue(Fetched(source[k])), target)
        else (Returned, target)
      case Fetched(body) =>
        if length.Some? then (Continue(Measured(body, length.value)), target)
        else if !call.fault.NoFault? then (Raise(call.fault), target)
        else if k in source then (Continue(Measured(body, |source[k]|)), target)
        else (Returned, target)
      case Measured(body, n) =>
        var after := target[k := Stored(body, n, call)];
        if call.fault.NoFault? then (Returned, after)
        else (Raise(call.fault), if call.landed then after else target)
  }

  // ---------------------------------------------------------------- consumer and retry task

  function EndTask(part: Partition, i: nat): Partition
    requires i < |part.tasks|
  {
    part.(paused := false, tasks := part.tasks[..i] + part.tasks[i + 1..])
  }

  function NextAttempt(part: Partition, i: nat): Partition
    requires i < |part.tasks|
  {
    var t := part.tasks[i];
    part.(tasks := part.tasks[i := Task(t.offset, t.attempt + 1, Begin)])
  }

  /** advance_consumer_offset: seek past the failed offset, resume; a raise sends the task
      round its loop once more. */
  function AdvanceConsumer(part: Partition, i: nat, handle: Resumption): Partition
    requires i < |part.tasks|
  {
    var o := part.tasks[i].offset;
    match handle
    case Fine => EndTask(part.(position := o + 1), i)
    case SeekRaises => NextAttempt(part, i)
    case ResumeRaises => NextAttempt(part.(position := o + 1), i)
  }

  function Record(part: Partition, o: nat, outcome: Outcome): Partition {
    part.(outcomes := part.outcomes[o := outcome])
  }

  /** The handler's reaction to the progress of its replication: a transient error pauses the
      partition and starts a task. */
  function HandlerReaction(part: Partition, progress: Progress): Partition
    requires part.handling.Some?
  {
    var o := part.handling.value.offset;
    match progress
    case Continue(phase) => part.(handling := Some(Job(o, phase)))
    case Returned => Record(part, o, Success).(handling := None)
    case Raised(permanent) =>
      if permanent then Record(part, o, SkippedPermanent).(handling := None)
      else part.(paused := true, handling := None, tasks := part.tasks + [Task(o, 1, Begin)])
  }

  /** The background task's reaction: success rewinds to the failed offset and resumes; a raise
      of that rewind is classified like a replication error. */
  function TaskReaction(part: Partition, i: nat, progress: Progress, rewind: Resumption,
                        rewindPermanent: bool, advance: Resumption): Partition
    requires i < |part.tasks|
  {
    var t := part.tasks[i];
    var o := t.offset;
    match progress
    case Continue(phase) => part.(tasks := part.tasks[i := t.(phase := phase)])
    case Returned =>
      var done := Record(part, o, Success);
      if rewind.Fine? then EndTask(done.(position := o), i)
      else
        var moved := if rewind.ResumeRaises? then done.(position := o) else done;
        if rewindPermanent then AdvanceConsumer(Record(moved, o, SkippedPermanent), i, advance)
        else NextAttempt(moved, i)
    case Raised(permanent) =>
      if permanent then AdvanceConsumer(Record(part, o, SkippedPermanent), i, advance)
      else NextAttempt(part, i)
  }

  // ---------------------------------------------------------------- the step system

  ghost predicate Wf(cfg: Config, s: State) {
    && |s.partitions| == cfg.count
    && (forall k :: cfg.route(k) < cfg.count)
    && (forall p, o :: 0 <= p < cfg.count && 0 <= o < |s.partitions[p].log| ==>
          cfg.route(s.partitions[p].log[o].key) == p)
    && (forall p :: 0 <= p < cfg.count ==> PartitionOk(s.partitions[p]))
  }

  /** Worker safety for one partition: at most one task lives, exactly while the partition is paused,
      and then no handler runs. */
  predicate PartitionOk(part: Partition) {
    && part.position <= |part.log|
    && |part.tasks| <= 1
    && (part.paused <==> |part.tasks| == 1)
    && (part.tasks != [] ==> part.handling.None?)
    && (part.handling.Some? ==> part.position == part.handling.value.offset + 1)
    && (forall i :: 0 <= i < |part.tasks| ==> TaskOk(part, part.tasks[i]))
    && (forall o: nat :: o < part.position ==> o in part.outcomes || part.On(o))
  }

  predicate TaskOk(part: Partition, t: Task) {
    && t.offset < |part.log|
    && t.attempt >= 1
    && t.offset <= part.position <= t.offset + 1
  }

  ghost predicate Enabled(cfg: Config, s: State, step: Step)
    requires Wf(cfg, s)
  {
    match step
    case ClientPut(k, _, _) => k !in s.unpublished
    case ClientDelete(k) => k !in s.unpublished
    case Publish(k) => k in s.unpublished
    case PublishOther(_) => true
    case Deliver(p) =>
      && p < cfg.count
      && s.partitions[p].handling.None? && !s.partitions[p].paused
      && s.partitions[p].position < |s.partitions[p].log|
    case Poison(p) =>
      && p < cfg.count
      && s.partitions[p].handling.Some? && s.partitions[p].handling.value.phase.Begin?
    case Handler(p, _) => p < cfg.count && s.partitions[p].handling.Some?
    case Retry(p, i, _, _, _, _) =>
      && p < cfg.count && i < |s.partitions[p].tasks|
      && (s.partitions[p].tasks[i].phase.Begin? ==> s.partitions[p].tasks[i].attempt <= cfg.maxRetries)
    case GiveUp(p, i, _) =>
      && p < cfg.count && i < |s.partitions[p].tasks|
      && s.partitions[p].tasks[i].phase.Begin?
      && s.partitions[p].tasks[i].attempt > cfg.maxRetries
    case Restart(p, committed) =>
      && p < cfg.count
      && committed <= s.partitions[p].position
      && (forall o: nat :: s.partitions[p].On(o) ==> committed <= o)
  }

  ghost function Append(cfg: Config, s: State, m: Message): State
    requires Wf(cfg, s)
  {
    var p := cfg.route(m.key);
    s.(partitions := s.partitions[p := s.partitions[p].(log := s.partitions[p].log + [m])])
  }

  ghost function Apply(cfg: Config, s: State, step: Step): State
    requires Wf(cfg, s) && Enabled(cfg, s, step)
  {
    match step
    case ClientPut(k, body, announced) =>
      s.(source := s.source[k := body],
         unpublished := s.unpublished[k := Put(if announced then Some(|body|) else None)])
    case ClientDelete(k) =>
      s.(source := s.source - {k}, unpublished := s.unpublished[k := Delete])
    case Publish(k) =>
      Append(cfg, s, Message(k, s.unpublished[k])).(unpublished := s.unpublished - {k})
    case PublishOther(k) =>
      Append(cfg, s, Message(k, Other))
    case Deliver(p) =>
      var part := s.partitions[p];
      SetPartition(s, p, part.(position := part.position + 1, handling := Some(Job(part.position, Begin))))
    case Poison(p) =>
      var part := s.partitions[p];
      SetPartition(s, p, Record(part, part.handling.value.offset, SkippedPoison).(handling := None))
    case Handler(p, call) =>
      var part := s.partitions[p];
      var job := part.handling.value;
      var (progress, target) := Replicate(cfg, part.log[job.offset], job.phase, s.source, s.target, call);
      SetPartition(s, p, HandlerReaction(part, progress)).(target := target)
    case Retry(p, i, call, rewind, rewindPermanent, advance) =>
      var part := s.partitions[p];
      var task := part.tasks[i];
      assert TaskOk(part, task);
      var (progress, target) := Replicate(cfg, part.log[task.offset], task.phase, s.source, s.target, call);
      SetPartition(s, p, TaskReaction(part, i, progress, rewind, rewindPermanent, advance)).(target := target)
    case GiveUp(p, i, advance) =>
      var part := s.partitions[p];
      SetPartition(s, p,
        AdvanceConsumer(Record(part, part.tasks[i].offset, SkippedMaxRetries), i, advance))
    case Restart(p, committed) =>
      SetPartition(s, p, s.partitions[p].(position := committed, paused := false, handling := None, tasks := []))
  }

  function SetPartition(s: State, p: nat, part: Partition): State
    requires p < |s.partitions|
  {
    s.(partitions := s.partitions[p := part])
  }

  ghost predicate Next(cfg: Config, s: State, t: State) {
    Wf(cfg, s) && exists step :: Enabled(cfg, s, step) && t == Apply(cfg, s, step)
  }

  ghost predicate Init(cfg: Config, s: State) {
    && |s.partitions| == cfg.count
    && (forall k :: cfg.route(k) < cfg.count)
    && s.unpublished == map[]
    && (forall p :: 0 <= p < cfg.count ==> s.partitions[p] == Partition([], 0, false, None, [], map[]))
  }

  // ---------------------------------------------------------------- the invariant

  predicate Moves(m: Message, k: Key) {
    m.key == k && !m.op.Other?
  }

  /** Offset of the last message that changes the body of `k`, or -1. */
  function Last(log: seq<Message>, k: Key): (o: int)
    ensures -1 <= o < |log|
    ensures o >= 0 ==> Moves(log[o], k)
    ensures forall i :: o < i < |log| ==> !Moves(log[i], k)
  {
    if log == [] then -1
    else if Moves(log[|log| - 1], k) then |log| - 1
    else Last(log[..|log| - 1], k)
  }

  /** The source shows exactly what operation `op` on `k` leaves behind. */
  predicate Shows(source: map<Key, Bytes>, k: Key, op: Op) {
    match op
    case Put(length) => k in source && (length.Some? ==> length.value == |source[k]|)
    case Delete => k !in source
    case Other => false
  }

  predicate Agree(s: State, k: Key) {
    Lookup(s.source, k) == Lookup(s.target, k)
  }

  /** Offset of the last message that changes the body of `k`, or -1. */
  ghost function LastOf(cfg: Config, s: State, k: Key): int
    requires Wf(cfg, s)
  {
    Last(s.partitions[cfg.route(k)].log, k)
  }

  /** No write of `k` waits to be published, and it has a last message, which was handled and not
      skipped and which nobody is working on. */
  ghost predicate Settled(cfg: Config, s: State, k: Key)
    requires Wf(cfg, s)
  {
    var part := s.partitions[cfg.route(k)];
    var last := Last(part.log, k);
    && k !in s.unpublished
    && 0 <= last < part.position
    && last in part.outcomes && part.outcomes[last] == Success
    && !part.On(last)
  }

  /** A replication in flight holds data of the present source. */
  predicate Fresh(phase: Phase, source: map<Key, Bytes>, k: Key) {
    match phase
    case Begin => true
    case HeadedSource(seen) => k in source && seen == source[k]
    case Fetching => true
    case Fetched(body) => k in source && body == source[k]
    case Measured(body, n) => k in source && body == source[k] && n == |body|
  }

  /** All work on offset `o` is fresh. */
  predicate FreshAt(part: Partition, o: int, source: map<Key, Bytes>, k: Key) {
    && (part.handling.Some? && part.handling.value.offset == o ==> Fresh(part.handling.value.phase, source, k))
    && (forall i :: 0 <= i < |part.tasks| && part.tasks[i].offset == o ==> Fresh(part.tasks[i].phase, source, k))
  }

  ghost predicate KeyOk(cfg: Config, s: State, k: Key)
    requires Wf(cfg, s)
  {
    var part := s.partitions[cfg.route(k)];
    var last := Last(part.log, k);
    && (k in s.unpublished ==> Shows(s.source, k, s.unpublished[k]))
    && (k !in s.unpublished && last >= 0 ==>
          && Shows(s.source, k, part.log[last].op)
          && (part.log[last].op.Put? ==> FreshAt(part, last, s.source, k)))
    && (Settled(cfg, s, k) ==> Agree(s, k))
  }

  ghost predicate Inv(cfg: Config, s: State) {
    Wf(cfg, s) && forall k :: KeyOk(cfg, s, k)
  }

  lemma {:induction false} InitInv(cfg: Config, s: State)
    requires Init(cfg, s)
    ensures Inv(cfg, s)
  {
  }

  lemma {:induction false} LastAppend(log: seq<Message>, m: Message, k: Key)
    ensures Last(log + [m], k) == if Moves(m, k) then |log| else Last(log, k)
  {
    assert (log + [m])[..|log|] == log;
  }

  // ---------------------------------------------------------------- preservation

  /** With at most one task, changing it or ending it is simple. */
  lemma {:induction false} OnlyTask(tasks: seq<Task>, i: nat)
    requires |tasks| <= 1 && i < |tasks|
    ensures i == 0 && tasks == [tasks[0]] && tasks[..i] + tasks[i + 1..] == []
    ensures forall t :: tasks[i := t] == [t]
  {
  }

  /** What a worker step on offset `o` may do to its partition, as far as keys are concerned. */
  ghost predicate Moved(part: Partition, after: Partition, o: nat) {
    && after.log == part.log
    && after.position <= o + 1
    && o <= part.position
    && (forall l: int :: part.On(l) ==> l == o)
    && (forall l: int :: after.On(l) ==> l == o)
    && (forall l: nat :: l != o ==> Lookup(after.outcomes, l) == Lookup(part.outcomes, l))
  }

  /** All work on offset `o` begins anew or goes on with the phase of `progress`. */
  predicate GoesOn(part: Partition, o: nat, progress: Progress) {
    && (part.handling.Some? && part.handling.value.offset == o ==> NextPhase(part.handling.value.phase, progress))
    && (forall i :: 0 <= i < |part.tasks| && part.tasks[i].offset == o ==> NextPhase(part.tasks[i].phase, progress))
  }

  predicate NextPhase(phase: Phase, progress: Progress) {
    phase.Begin? || progress == Continue(phase)
  }

  /** A reaction keeps worker safety, concerns one offset, and records success only on return. */
  ghost predicate Reacted(part: Partition, after: Partition, o: nat, progress: Progress) {
    && PartitionOk(after)
    && Moved(part, after, o)
    && GoesOn(after, o, progress)
    && (!after.On(o) && Lookup(after.outcomes, o) == Some(Success) ==> progress.Returned?)
  }

  lemma {:induction false} HandlerReactionOk(part: Partition, progress: Progress)
    requires PartitionOk(part) && part.handling.Some?
    ensures Reacted(part, HandlerReaction(part, progress), part.handling.value.offset, progress)
  {
    var o, after := part.handling.value.offset, HandlerReaction(part, progress);
    if progress.Raised? && !progress.permanent {
      assert after.tasks == [Task(o, 1, Begin)];
      assert after.tasks[0].offset == o;
    }
    assert progress.Continue? ==> after.On(o);
  }

  /** The task and the positions left to it stay as they are. */
  lemma {:induction false} SameTaskOk(part: Partition, after: Partition, o: nat, progress: Progress)
    requires PartitionOk(part) && |part.tasks| == 1 && part.tasks[0].offset == o
    requires after == part.(position := after.position, tasks := after.tasks, outcomes := after.outcomes)
    requires |after.tasks| == 1 && after.tasks[0].offset == o && after.tasks[0].attempt >= 1
    requires NextPhase(after.tasks[0].phase, progress)
    requires o <= after.position <= o + 1
    requires forall l: nat :: l != o ==> Lookup(after.outcomes, l) == Lookup(part.outcomes, l)
    ensures Reacted(part, after, o, progress)
  {
    assert TaskOk(part, part.tasks[0]);
    forall l: nat | l < after.position ensures l in after.outcomes || after.On(l) {
      assert l != o ==> !part.On(l) && Lookup(after.outcomes, l) == Lookup(part.outcomes, l);
    }
  }

  /** Ending the only task with its offset recorded. */
  lemma {:induction false} EndedOk(part: Partition, after: Partition, o: nat, progress: Progress)
    requires PartitionOk(part) && |part.tasks| == 1 && part.tasks[0].offset == o
    requires after == Partition(part.log, after.position, false, None, [], after.outcomes)
    requires o <= after.position <= o + 1
    requires o in after.outcomes && (after.outcomes[o] == Success ==> progress.Returned?)
    requires forall l: nat :: l != o ==> Lookup(after.outcomes, l) == Lookup(part.outcomes, l)
    ensures Reacted(part, after, o, progress)
  {
    assert TaskOk(part, part.tasks[0]);
    forall l: nat | l < after.position ensures l in after.outcomes {
      assert l != o ==> !part.On(l) && Lookup(after.outcomes, l) == Lookup(part.outcomes, l);
    }
  }

  /** `part` with another position and other outcomes for the task's offset. */
  ghost predicate Noted(part: Partition, noted: Partition, o: nat) {
    && noted == part.(position := noted.position, outcomes := noted.outcomes)
    && o <= noted.position <= o + 1
    && o in noted.outcomes
    && forall l: nat :: l != o ==> Lookup(noted.outcomes, l) == Lookup(part.outcomes, l)
  }

  /** Advancing past a skipped offset keeps worker safety, also when seek or resume raises. */
  lemma {:induction false} AdvanceConsumerOk(part: Partition, noted: Partition, i: nat, handle: Resumption, progress: Progress)
    requires PartitionOk(part) && i < |part.tasks| && Noted(part, noted, part.tasks[i].offset)
    requires noted.outcomes[part.tasks[i].offset] != Success
    ensures Reacted(part, AdvanceConsumer(noted, i, handle), part.tasks[i].offset, progress)
  {
    var o := part.tasks[i].offset;
    OnlyTask(part.tasks, i);
    assert TaskOk(part, part.tasks[0]);
    if handle.Fine? {
      EndedOk(part, AdvanceConsumer(noted, i, handle), o, progress);
    } else {
      SameTaskOk(part, AdvanceConsumer(noted, i, handle), o, progress);
    }
  }

  lemma {:induction false} TaskReactionOk(part: Partition, i: nat, progress: Progress, rewind: Resumption,
                       rewindPermanent: bool, advance: Resumption)
    requires PartitionOk(part) && i < |part.tasks|
    ensures Reacted(part, TaskReaction(part, i, progress, rewind, rewindPermanent, advance),
                    part.tasks[i].offset, progress)
  {
    var o := part.tasks[i].offset;
    var after := TaskReaction(part, i, progress, rewind, rewindPermanent, advance);
    OnlyTask(part.tasks, i);
    assert TaskOk(part, part.tasks[0]);
    if progress.Returned? {
      var done := Record(part, o, Success);
      var moved := if rewind.ResumeRaises? then done.(position := o) else done;
      if rewind.Fine? {
        EndedOk(part, after, o, progress);
      } else if rewindPermanent {
        AdvanceConsumerOk(part, Record(moved, o, SkippedPermanent), i, advance, progress);
      } else {
        SameTaskOk(part, after, o, progress);
      }
    } else if progress.Raised? && progress.permanent {
      AdvanceConsumerOk(part, Record(part, o, SkippedPermanent), i, advance, progress);
    } else {
      SameTaskOk(part, after, o, progress);
    }
  }

  lemma {:induction false} PoisonOk(part: Partition)
    requires PartitionOk(part) && part.handling.Some?
    ensures var o := part.handling.value.offset;
            Reacted(part, Record(part, o, SkippedPoison).(handling := None), o, Raised(true))
  {
  }

  // ---------------------------------------------------------------- worker steps


  /** The offset a step of the handler or of a task works on. */
  function WorkedOn(part: Partition, step: Step): nat {
    if step.Retry? && step.i < |part.tasks| then part.tasks[step.i].offset
    else if step.GiveUp? && step.i < |part.tasks| then part.tasks[step.i].offset
    else if part.handling.Some? then part.handling.value.offset
    else 0
  }

  /** A step of the handler or of a task. */
  predicate AtWork(step: Step) {
    step.Poison? || step.Handler? || step.Retry? || step.GiveUp?
  }

  function PhaseOf(part: Partition, step: Step): Phase {
    if step.Retry? && step.i < |part.tasks| then part.tasks[step.i].phase
    else if part.handling.Some? then part.handling.value.phase
    else Begin
  }

  /** How the replication that a step works on comes along. */
  function ProgressOf(cfg: Config, s: State, step: Step): Progress
    requires AtWork(step) && step.p < |s.partitions|
    requires WorkedOn(s.partitions[step.p], step) < |s.partitions[step.p].log|
  {
    var part := s.partitions[step.p];
    if step.Handler? || step.Retry? then
      Replicate(cfg, part.log[WorkedOn(part, step)], PhaseOf(part, step), s.source, s.target, step.call).0
    else Raised(true)
  }

  /** A step at work reacts on its partition, leaves the others alone, and changes the target only
      as its replication does. */
  lemma {:induction false} AtWorkStep(cfg: Config, s: State, step: Step)
    requires Wf(cfg, s) && Enabled(cfg, s, step) && AtWork(step)
    ensures var part, t := s.partitions[step.p], Apply(cfg, s, step);
            var o := WorkedOn(part, step);
            && o < |part.log| && part.On(o)
            && t.partitions == s.partitions[step.p := t.partitions[step.p]]
            && Reacted(part, t.partitions[step.p], o, ProgressOf(cfg, s, step))
            && t.source == s.source && t.unpublished == s.unpublished
            && t.target == if step.Handler? || step.Retry?
                           then Replicate(cfg, part.log[o], PhaseOf(part, step), s.source, s.target, step.call).1
                           else s.target
  {
    var part := s.partitions[step.p];
    assert PartitionOk(part);
    match step
    case Poison(p) => PoisonOk(part);
    case Handler(p, call) => HandlerReactionOk(part, ProgressOf(cfg, s, step));
    case Retry(p, i, call, rewind, rewindPermanent, advance) =>
      assert TaskOk(part, part.tasks[i]);
      TaskReactionOk(part, i, ProgressOf(cfg, s, step), rewind, rewindPermanent, advance);
    case GiveUp(p, i, advance) =>
      assert TaskOk(part, part.tasks[i]);
      AdvanceConsumerOk(part, Record(part, part.tasks[i].offset, SkippedMaxRetries), i, advance, Raised(true));
  }

  lemma {:induction false} DeliverOk(cfg: Config, s: State, p: nat)
    requires Wf(cfg, s) && Enabled(cfg, s, Deliver(p))
    ensures var part, t := s.partitions[p], Apply(cfg, s, Deliver(p));
            && part.Idle()
            && t.partitions == s.partitions[p := t.partitions[p]]
            && PartitionOk(t.partitions[p])
            && Moved(part, t.partitions[p], part.position)
            && t.partitions[p].On(part.position)
  {
    var part, after := s.partitions[p], Apply(cfg, s, Deliver(p)).partitions[p];
    assert PartitionOk(part);
    forall o: nat | o < after.position ensures o in after.outcomes || after.On(o) {
      assert o < part.position ==> o in part.outcomes || part.On(o);
    }
  }

  lemma {:induction false} SamePartitionsWf(cfg: Config, s: State, t: State)
    requires Wf(cfg, s) && t.partitions == s.partitions
    ensures Wf(cfg, t)
  {
  }

  lemma {:induction false} OnePartitionWf(cfg: Config, s: State, t: State, p: nat)
    requires Wf(cfg, s) && p < cfg.count && |t.partitions| == cfg.count
    requires t.partitions == s.partitions[p := t.partitions[p]]
    requires t.partitions[p].log == s.partitions[p].log && PartitionOk(t.partitions[p])
    ensures Wf(cfg, t)
  {
  }

  lemma {:induction false} StepWf(cfg: Config, s: State, step: Step)
    requires Wf(cfg, s) && Enabled(cfg, s, step)
    ensures Wf(cfg, Apply(cfg, s, step))
  {
    var t := Apply(cfg, s, step);
    match step
    case Publish(k) =>
      AppendWf(cfg, s, Message(k, s.unpublished[k]));
      SamePartitionsWf(cfg, Append(cfg, s, Message(k, s.unpublished[k])), t);
    case PublishOther(k) => AppendWf(cfg, s, Message(k, Other));
    case ClientPut(_, _, _) => SamePartitionsWf(cfg, s, t);
    case ClientDelete(_) => SamePartitionsWf(cfg, s, t);
    case Deliver(p) =>
      DeliverOk(cfg, s, p);
      OnePartitionWf(cfg, s, t, p);
    case Restart(p, committed) =>
      RestartOk(s.partitions[p], committed);
      OnePartitionWf(cfg, s, t, p);
    case _ =>
      AtWorkStep(cfg, s, step);
      OnePartitionWf(cfg, s, t, step.p);
  }

  lemma {:induction false} RestartOk(part: Partition, committed: nat)
    requires PartitionOk(part) && committed <= part.position
    requires forall o: nat :: part.On(o) ==> committed <= o
    ensures PartitionOk(part.(position := committed, paused := false, handling := None, tasks := []))
  {
  }

  lemma {:induction false} AppendWf(cfg: Config, s: State, m: Message)
    requires Wf(cfg, s)
    ensures Wf(cfg, Append(cfg, s, m))
  {
    var p := cfg.route(m.key);
    var part := s.partitions[p];
    var after := part.(log := part.log + [m]);
    assert PartitionOk(part);
    forall o: int ensures after.On(o) == part.On(o) {
    }
    assert forall i :: 0 <= i < |part.tasks| ==> TaskOk(part, part.tasks[i]);
  }

  /** A replication touches no key but its own. */
  lemma {:induction false} ReplicateFrame(cfg: Config, m: Message, phase: Phase, source: map<Key, Bytes>,
                       target: map<Key, Bytes>, call: Call, k: Key)
    requires m.key != k || m.op.Other?
    ensures Lookup(Replicate(cfg, m, phase, source, target, call).1, k) == Lookup(target, k)
  {
  }

  /** Replicating the last message of an undisturbed key keeps its data fresh, and returns only
      when target and source agree on the key. */
  lemma {:induction false} ReplicateLast(cfg: Config, m: Message, phase: Phase, source: map<Key, Bytes>,
                      target: map<Key, Bytes>, call: Call)
    requires Shows(source, m.key, m.op)
    requires m.op.Put? ==> Fresh(phase, source, m.key)
    ensures var (progress, after) := Replicate(cfg, m, phase, source, target, call);
            && (progress.Continue? && m.op.Put? ==> Fresh(progress.phase, source, m.key))
            && (progress.Returned? ==> Lookup(after, m.key) == Lookup(source, m.key))
  {
  }

  lemma {:induction false} AppendPart(part: Partition, m: Message)
    ensures var after := part.(log := part.log + [m]);
            && (forall o: int :: after.On(o) == part.On(o))
            && (forall o: int, source, k :: FreshAt(after, o, source, k) == FreshAt(part, o, source, k))
  {
  }

  lemma {:induction false} AppendKey(cfg: Config, s: State, m: Message, k: Key)
    requires Wf(cfg, s) && KeyOk(cfg, s, k) && !Moves(m, k)
    ensures Wf(cfg, Append(cfg, s, m))
    ensures KeyOk(cfg, Append(cfg, s, m), k)
  {
    var part := s.partitions[cfg.route(m.key)];
    AppendWf(cfg, s, m);
    LastAppend(part.log, m, k);
    AppendPart(part, m);
    var last := Last(part.log, k);
    assert last >= 0 ==> (part.log + [m])[last] == part.log[last];
  }

  lemma {:induction false} OtherPublished(cfg: Config, s: State, key: Key, k: Key)
    requires Wf(cfg, s) && KeyOk(cfg, s, k) && key in s.unpublished && key != k
    ensures Wf(cfg, Apply(cfg, s, Publish(key)))
    ensures KeyOk(cfg, Apply(cfg, s, Publish(key)), k)
  {
    StepWf(cfg, s, Publish(key));
    var m := Message(key, s.unpublished[key]);
    AppendWf(cfg, s, m);
    AppendKey(cfg, s, m, k);
  }

  /** The key whose write has just been published, as the last message of its partition. */
  lemma {:induction false} PublishKey(cfg: Config, s: State, t: State, k: Key)
    requires Wf(cfg, s) && Wf(cfg, t) && KeyOk(cfg, s, k) && k in s.unpublished
    requires t.source == s.source && k !in t.unpublished
    requires var part, after := s.partitions[cfg.route(k)], t.partitions[cfg.route(k)];
             && after == part.(log := after.log)
             && Last(after.log, k) == |part.log| < |after.log|
             && after.log[|part.log|] == Message(k, s.unpublished[k])
    ensures KeyOk(cfg, t, k)
  {
    var part, after := s.partitions[cfg.route(k)], t.partitions[cfg.route(k)];
    assert PartitionOk(part) && !part.On(|part.log|) && !after.On(|part.log|);
  }

  /** A key other than the one worked on keeps its invariant. */
  lemma {:induction false} OtherKey(cfg: Config, s: State, t: State, p: nat, o: nat, k: Key)
    requires Wf(cfg, s) && Wf(cfg, t) && p < cfg.count && KeyOk(cfg, s, k)
    requires t.source == s.source && t.unpublished == s.unpublished
    requires t.partitions == s.partitions[p := t.partitions[p]]
    requires Moved(s.partitions[p], t.partitions[p], o)
    requires Lookup(t.target, k) == Lookup(s.target, k)
    requires cfg.route(k) == p ==> o != Last(s.partitions[p].log, k)
    ensures KeyOk(cfg, t, k)
  {
    var l := Last(s.partitions[cfg.route(k)].log, k);
    if cfg.route(k) == p && l >= 0 {
      var n: nat := l;
      assert Lookup(t.partitions[p].outcomes, n) == Lookup(s.partitions[p].outcomes, n);
      assert !t.partitions[p].On(n) && !s.partitions[p].On(n);
    }
  }

  /** A key with a later message than the one worked on is not settled on either side. */
  lemma {:induction false} StaleKey(cfg: Config, s: State, t: State, p: nat, o: nat, k: Key)
    requires Wf(cfg, s) && Wf(cfg, t) && p < cfg.count && KeyOk(cfg, s, k)
    requires t.source == s.source && t.unpublished == s.unpublished
    requires t.partitions == s.partitions[p := t.partitions[p]]
    requires Moved(s.partitions[p], t.partitions[p], o)
    requires cfg.route(k) == p
    requires o < Last(s.partitions[p].log, k) || k in s.unpublished
    ensures KeyOk(cfg, t, k)
  {
    var l := Last(s.partitions[p].log, k);
    assert o < l ==> !t.partitions[p].On(l);
  }

  /** The key whose last message is worked on. */
  lemma {:induction false} LastKey(cfg: Config, s: State, t: State, p: nat, o: nat, k: Key, progress: Progress)
    requires Wf(cfg, s) && Wf(cfg, t) && p < cfg.count && KeyOk(cfg, s, k)
    requires t.source == s.source && t.unpublished == s.unpublished
    requires t.partitions == s.partitions[p := t.partitions[p]]
    requires Reacted(s.partitions[p], t.partitions[p], o, progress)
    requires cfg.route(k) == p && o == Last(s.partitions[p].log, k) && k !in s.unpublished
    requires progress.Continue? && s.partitions[p].log[o].op.Put? ==> Fresh(progress.phase, s.source, k)
    requires progress.Returned? ==> Lookup(t.target, k) == Lookup(s.source, k)
    ensures KeyOk(cfg, t, k)
  {
  }

  lemma {:induction false} WorkKey(cfg: Config, s: State, step: Step, k: Key)
    requires Wf(cfg, s) && Enabled(cfg, s, step) && AtWork(step)
    requires KeyOk(cfg, s, k)
    ensures Wf(cfg, Apply(cfg, s, step))
    ensures KeyOk(cfg, Apply(cfg, s, step), k)
  {
    StepWf(cfg, s, step);
    AtWorkStep(cfg, s, step);
    WorkedKey(cfg, s, Apply(cfg, s, step), step, k);
  }

  /** The same of any state that stands to `s` as the state after the step does. */
  lemma {:induction false} WorkedKey(cfg: Config, s: State, t: State, step: Step, k: Key)
    requires Wf(cfg, s) && Wf(cfg, t) && AtWork(step) && step.p < cfg.count && KeyOk(cfg, s, k)
    requires var part := s.partitions[step.p];
             var o := WorkedOn(part, step);
             && o < |part.log| && part.On(o)
             && t.partitions == s.partitions[step.p := t.partitions[step.p]]
             && Reacted(part, t.partitions[step.p], o, ProgressOf(cfg, s, step))
             && t.source == s.source && t.unpublished == s.unpublished
             && t.target == if step.Handler? || step.Retry?
                            then Replicate(cfg, part.log[o], PhaseOf(part, step), s.source, s.target, step.call).1
                            else s.target
    requires PhaseAt(s.partitions[step.p], step)
    ensures KeyOk(cfg, t, k)
  {
    var p := step.p;
    var part := s.partitions[p];
    var o := WorkedOn(part, step);
    if !Moves(part.log[o], k) {
      if step.Handler? || step.Retry? {
        ReplicateFrame(cfg, part.log[o], PhaseOf(part, step), s.source, s.target, step.call, k);
      }
      OtherKey(cfg, s, t, p, o, k);
    } else if o == Last(part.log, k) && k !in s.unpublished {
      if step.Handler? || step.Retry? {
        WorkIsFresh(part, step, o, s.source, k);
        ReplicateLast(cfg, part.log[o], PhaseOf(part, step), s.source, s.target, step.call);
      }
      LastKey(cfg, s, t, p, o, k, ProgressOf(cfg, s, step));
    } else {
      StaleKey(cfg, s, t, p, o, k);
    }
  }

  lemma {:induction false} WorkIsFresh(part: Partition, step: Step, o: nat, source: map<Key, Bytes>, k: Key)
    requires PhaseAt(part, step) && (step.Handler? || step.Retry?) && o == WorkedOn(part, step)
    requires o < |part.log| && (part.log[o].op.Put? ==> FreshAt(part, o, source, k))
    ensures part.log[o].op.Put? ==> Fresh(PhaseOf(part, step), source, k)
  {
  }

  /** The step's phase is the phase of work that is really there. */
  predicate PhaseAt(part: Partition, step: Step) {
    && (step.Handler? ==> part.handling.Some?)
    && (step.Retry? ==> step.i < |part.tasks|)
  }

  lemma {:induction false} DeliverKey(cfg: Config, s: State, p: nat, k: Key)
    requires Wf(cfg, s) && Enabled(cfg, s, Deliver(p))
    requires KeyOk(cfg, s, k)
    ensures Wf(cfg, Apply(cfg, s, Deliver(p)))
    ensures KeyOk(cfg, Apply(cfg, s, Deliver(p)), k)
  {
    StepWf(cfg, s, Deliver(p));
    var t := Apply(cfg, s, Deliver(p));
    var part := s.partitions[p];
    DeliverOk(cfg, s, p);
    if cfg.route(k) != p || part.position != Last(part.log, k) {
      OtherKey(cfg, s, t, p, part.position, k);
    }
  }

  lemma {:induction false} RestartKey(cfg: Config, s: State, p: nat, committed: nat, k: Key)
    requires Wf(cfg, s) && Enabled(cfg, s, Restart(p, committed))
    requires KeyOk(cfg, s, k)
    ensures Wf(cfg, Apply(cfg, s, Restart(p, committed)))
    ensures KeyOk(cfg, Apply(cfg, s, Restart(p, committed)), k)
  {
    StepWf(cfg, s, Restart(p, committed));
    var part := s.partitions[p];
    var last := Last(part.log, k);
    if last >= 0 {
      var n: nat := last;
      assert part.On(n) ==> committed <= n;
    }
  }

  /** A client's write leaves other keys alone, and its own key unsettled. */
  lemma {:induction false} ClientKey(cfg: Config, s: State, t: State, key: Key, op: Op, k: Key)
    requires Wf(cfg, s) && Wf(cfg, t) && KeyOk(cfg, s, k) && Shows(t.source, key, op)
    requires t.partitions == s.partitions && t.target == s.target
    requires t.unpublished == s.unpublished[key := op]
    requires forall other :: other != key ==> Lookup(t.source, other) == Lookup(s.source, other)
    ensures KeyOk(cfg, t, k)
  {
    if key != k {
      assert Lookup(t.source, k) == Lookup(s.source, k);
      SameSource(cfg, s, t, k);
    }
  }

  lemma {:induction false} SameSource(cfg: Config, s: State, t: State, k: Key)
    requires Wf(cfg, s) && Wf(cfg, t) && KeyOk(cfg, s, k)
    requires t.partitions == s.partitions && t.target == s.target
    requires Lookup(t.unpublished, k) == Lookup(s.unpublished, k) && Lookup(t.source, k) == Lookup(s.source, k)
    ensures KeyOk(cfg, t, k)
  {
    var part := s.partitions[cfg.route(k)];
    var last := Last(part.log, k);
    assert FreshAt(part, last, s.source, k) ==> FreshAt(part, last, t.source, k);
  }

  lemma {:induction false} StepKey(cfg: Config, s: State, step: Step, k: Key)
    requires Wf(cfg, s) && Enabled(cfg, s, step)
    requires KeyOk(cfg, s, k)
    ensures Wf(cfg, Apply(cfg, s, step))
    ensures KeyOk(cfg, Apply(cfg, s, step), k)
  {
    StepWf(cfg, s, step);
    match step
    case Publish(key) =>
      if key == k {
        LastAppend(s.partitions[cfg.route(k)].log, Message(k, s.unpublished[k]), k);
        PublishKey(cfg, s, Apply(cfg, s, step), k);
      } else {
        OtherPublished(cfg, s, key, k);
      }
    case PublishOther(key) => AppendKey(cfg, s, Message(key, Other), k);
    case ClientPut(key, body, announced) =>
      ClientKey(cfg, s, Apply(cfg, s, step), key, Put(if announced then Some(|body|) else None), k);
    case ClientDelete(key) => ClientKey(cfg, s, Apply(cfg, s, step), key, Delete, k);
    case Deliver(p) => DeliverKey(cfg, s, p, k);
    case Restart(p, committed) => RestartKey(cfg, s, p, committed, k);
    case _ => WorkKey(cfg, s, step, k);
  }

  lemma {:induction false} NextInv(cfg: Config, s: State, t: State)
    requires Inv(cfg, s) && Next(cfg, s, t)
    ensures Inv(cfg, t)
  {
    var step :| Enabled(cfg, s, step) && t == Apply(cfg, s, step);
    StepWf(cfg, s, step);
    forall k ensures KeyOk(cfg, t, k) {
      StepKey(cfg, s, step, k);
    }
  }

  ghost function Steps(cfg: Config): (State, State) -> bool {
    (s, t) => Next(cfg, s, t)
  }

  /** A run of `n` steps leads from an initial state to `s`. */
  ghost predicate Run(cfg: Config, s0: State, s: State, n: nat) {
    Init(cfg, s0) && Reaches(Steps(cfg), s0, s, n)
  }

  // ---------------------------------------------------------------- untouched keys

  /** A key that was never written is on both sides as it was at the start. */
  ghost predicate Untouched(cfg: Config, s0: State, s: State, k: Key) {
    && Wf(cfg, s)
    && (k in s.unpublished ==> !s.unpublished[k].Other?)
    && (k !in s.unpublished && LastOf(cfg, s, k) < 0 ==>
          Lookup(s.source, k) == Lookup(s0.source, k) && Lookup(s.target, k) == Lookup(s0.target, k))
  }

  lemma {:induction false} AtWorkUntouched(cfg: Config, s0: State, s: State, step: Step, k: Key)
    requires Untouched(cfg, s0, s, k) && Enabled(cfg, s, step) && AtWork(step)
    ensures Untouched(cfg, s0, Apply(cfg, s, step), k)
  {
    AtWorkStep(cfg, s, step);
    StepWf(cfg, s, step);
    var part := s.partitions[step.p];
    var m := part.log[WorkedOn(part, step)];
    if step.Handler? || step.Retry? {
      if !Moves(m, k) {
        ReplicateFrame(cfg, m, PhaseOf(part, step), s.source, s.target, step.call, k);
      } else {
        assert cfg.route(k) == step.p;
      }
    }
  }

  lemma {:induction false} StepUntouched(cfg: Config, s0: State, s: State, step: Step, k: Key)
    requires Untouched(cfg, s0, s, k) && Enabled(cfg, s, step)
    ensures Untouched(cfg, s0, Apply(cfg, s, step), k)
  {
    StepWf(cfg, s, step);
    match step
    case Publish(key) =>
      LastAppend(s.partitions[cfg.route(key)].log, Message(key, s.unpublished[key]), k);
    case PublishOther(key) => LastAppend(s.partitions[cfg.route(key)].log, Message(key, Other), k);
    case ClientPut(_, _, _) =>
    case ClientDelete(_) =>
    case Deliver(_) =>
    case Restart(_, _) =>
    case _ => AtWorkUntouched(cfg, s0, s, step, k);
  }

  /** What a run from `s0` keeps. */
  ghost predicate Kept(cfg: Config, s0: State, s: State) {
    Inv(cfg, s) && forall k :: Untouched(cfg, s0, s, k)
  }

  lemma {:induction false} NextKept(cfg: Config, s0: State, s: State, t: State)
    requires Kept(cfg, s0, s) && Next(cfg, s, t)
    ensures Kept(cfg, s0, t)
  {
    NextInv(cfg, s, t);
    var step :| Enabled(cfg, s, step) && t == Apply(cfg, s, step);
    forall k ensures Untouched(cfg, s0, t, k) {
      assert Untouched(cfg, s0, s, k);
      StepUntouched(cfg, s0, s, step, k);
    }
  }

  /** The invariant holds after every run. */
  lemma {:induction false} RunKept(cfg: Config, s0: State, s: State, n: nat)
    requires Run(cfg, s0, s, n)
    ensures Kept(cfg, s0, s)
  {
    InitInv(cfg, s0);
    forall a, b | Kept(cfg, s0, a) && Steps(cfg)(a, b) ensures Kept(cfg, s0, b) {
      NextKept(cfg, s0, a, b);
    }
    ReachesKeeps(Steps(cfg), a => Kept(cfg, s0, a), s0, s, n);
  }

  lemma {:induction false} RunWf(cfg: Config, s0: State, s: State, n: nat)
    requires Run(cfg, s0, s, n)
    ensures Wf(cfg, s)
  {
    RunKept(cfg, s0, s, n);
  }

  // ---------------------------------------------------------------- main results

  /** Convergence: after every run from any pair of stores, a key whose last write was published,
      whose last message was handled and not skipped, and on which nobody is working has the same
      body, or the same absence, on target and source; a key never written agrees exactly if it
      agreed at the start. */
  lemma {:induction false} Convergence(cfg: Config, s0: State, s: State, n: nat, k: Key)
    requires Run(cfg, s0, s, n)
    ensures Wf(cfg, s)
    ensures Settled(cfg, s, k) ==> Agree(s, k)
    ensures k !in s.unpublished && LastOf(cfg, s, k) < 0 ==> (Agree(s, k) <==> Agree(s0, k))
  {
    RunKept(cfg, s0, s, n);
    assert KeyOk(cfg, s, k) && Untouched(cfg, s0, s, k);
  }

  /** Worker safety: after every run a partition has at most one live task, is paused exactly while it
      has one, and then has no handler at work; every offset below the position has a recorded
      outcome or is being worked on; and all offsets before one that is worked on have an outcome. */
  lemma {:induction false} WorkerSafety(cfg: Config, s0: State, s: State, n: nat, p: nat)
    requires Run(cfg, s0, s, n) && p < cfg.count
    ensures |s.partitions| == cfg.count
    ensures var part := s.partitions[p];
            && |part.tasks| <= 1
            && (part.paused <==> part.tasks != [])
            && (part.tasks != [] ==> part.handling.None?)
            && (forall o: nat :: o < part.position ==> o in part.outcomes || part.On(o))
            && (forall o: nat, l: nat :: part.On(o) && l < o ==> l in part.outcomes)
  {
    RunWf(cfg, s0, s, n);
    var part := s.partitions[p];
    assert PartitionOk(part);
    forall o: nat, l: nat | part.On(o) && l < o ensures l in part.outcomes {
      assert |part.tasks| == 1 ==> TaskOk(part, part.tasks[0]);
      assert !part.On(l);
    }
  }

  /** The task for `o` still lives and its partition is paused, or the offset is settled: the
      position is on it after success (it is delivered once more), past it after a skip. */
  predicate LiveOrSettled(part: Partition, o: nat) {
    if part.tasks != [] then |part.tasks| == 1 && part.tasks[0].offset == o && part.paused && part.handling.None?
    else
      && part.Idle() && !part.paused && o in part.outcomes
      && part.position == (if part.outcomes[o] == Success then o else o + 1)
  }

  lemma {:induction false} TaskReactionSettles(part: Partition, i: nat, progress: Progress, rewind: Resumption,
                            rewindPermanent: bool, advance: Resumption)
    requires PartitionOk(part) && i < |part.tasks|
    ensures var o := part.tasks[0].offset;
            && LiveOrSettled(TaskReaction(part, i, progress, rewind, rewindPermanent, advance), o)
            && LiveOrSettled(AdvanceConsumer(Record(part, o, SkippedMaxRetries), i, advance), o)
  {
    OnlyTask(part.tasks, i);
  }

  /** While a retry task lives nothing is delivered from its partition, and unless the worker
      restarts the task leaves only by settling its offset. */
  lemma {:induction false} TaskSettles(cfg: Config, s: State, step: Step, p: nat)
    requires Wf(cfg, s) && Enabled(cfg, s, step) && p < cfg.count
    requires s.partitions[p].tasks != [] && !step.Restart?
    ensures step != Deliver(p)
    ensures |Apply(cfg, s, step).partitions| == cfg.count
    ensures LiveOrSettled(Apply(cfg, s, step).partitions[p], s.partitions[p].tasks[0].offset)
  {
    var part := s.partitions[p];
    assert PartitionOk(part);
    match step
    case Retry(q, i, call, rewind, rewindPermanent, advance) =>
      if q == p {
        TaskReactionSettles(part, i, ProgressOf(cfg, s, step), rewind, rewindPermanent, advance);
      }
    case GiveUp(q, i, advance) =>
      if q == p {
        TaskReactionSettles(part, i, Returned, Fine, false, advance);
      }
    case _ =>
  }

  // ---------------------------------------------------------------- eventual agreement

  predicate Drained(part: Partition) {
    part.Idle() && part.position == |part.log|
  }

  /** Nothing is left to publish or to replicate. */
  ghost predicate Finished(s: State) {
    && (forall k :: k !in s.unpublished)
    && forall p :: 0 <= p < |s.partitions| ==> Drained(s.partitions[p])
  }

  function Rank(phase: Phase): nat {
    match phase
    case Begin => 5
    case HeadedSource(_) => 4
    case Fetching => 3
    case Fetched(_) => 2
    case Measured(_, _) => 1
  }

  /** The message at `o` was skipped, or its retry task has no attempts left. */
  predicate Lost(cfg: Config, part: Partition, o: nat) {
    || (o in part.outcomes && part.outcomes[o] != Success)
    || (exists i :: 0 <= i < |part.tasks| && Spent(cfg, part.tasks[i]) && part.tasks[i].offset == o)
  }

  predicate Spent(cfg: Config, t: Task) {
    t.phase.Begin? && t.attempt > cfg.maxRetries
  }

  /** Bounds the fault-free steps a partition still needs. */
  function Remaining(part: Partition): nat {
    if !PartitionOk(part) then 0
    else if part.tasks != [] then
      assert TaskOk(part, part.tasks[0]);
      8 * (|part.log| - part.tasks[0].offset) + Rank(part.tasks[0].phase)
    else if part.handling.Some? then
      8 * (|part.log| - part.handling.value.offset - 1) + Rank(part.handling.value.phase)
    else 8 * (|part.log| - part.position)
  }

  function Sum(parts: seq<Partition>): nat {
    if parts == [] then 0 else Sum(parts[..|parts| - 1]) + Remaining(parts[|parts| - 1])
  }

  lemma {:induction false} SumUpdate(parts: seq<Partition>, p: nat, part: Partition)
    requires p < |parts|
    ensures Sum(parts[p := part]) + Remaining(parts[p]) == Sum(parts) + Remaining(part)
  {
    var n := |parts| - 1;
    if p == n {
      assert parts[p := part][..n] == parts[..n];
    } else {
      SumUpdate(parts[..n], p, part);
      assert parts[p := part][..n] == parts[..n][p := part];
    }
  }

  /** Bounds the fault-free steps until everything is finished. */
  function Total(s: State): nat {
    9 * |s.unpublished| + Sum(s.partitions)
  }

  /** A step of the publisher or the worker in which no call raises. */
  predicate Calm(step: Step) {
    match step
    case Publish(_) => true
    case Deliver(_) => true
    case Handler(_, call) => call.fault.NoFault?
    case Retry(_, _, call, rewind, _, _) => call.fault.NoFault? && rewind.Fine?
    case GiveUp(_, _, advance) => advance.Fine?
    case _ => false
  }

  ghost function CalmSteps(cfg: Config): (State, State) -> bool {
    (s, t) => Wf(cfg, s) && exists step :: Enabled(cfg, s, step) && Calm(step) && t == Apply(cfg, s, step)
  }

  /** A replication without faults moves on or returns. */
  lemma {:induction false} CalmReplicate(cfg: Config, m: Message, phase: Phase, source: map<Key, Bytes>,
                      target: map<Key, Bytes>, call: Call)
    requires call.fault.NoFault?
    ensures var progress := Replicate(cfg, m, phase, source, target, call).0;
            progress.Returned? || (progress.Continue? && Rank(progress.phase) < Rank(phase))
  {
  }

  /** `after` needs fewer steps than `part` and has lost nothing more. */
  ghost predicate Nearer(cfg: Config, part: Partition, after: Partition) {
    && Remaining(after) < Remaining(part)
    && forall o: nat :: Lost(cfg, after, o) ==> Lost(cfg, part, o)
  }

  lemma {:induction false} CalmHandler(cfg: Config, part: Partition, progress: Progress)
    requires PartitionOk(part) && part.handling.Some?
    requires progress.Returned? ||
             (progress.Continue? && Rank(progress.phase) < Rank(part.handling.value.phase))
    ensures Nearer(cfg, part, HandlerReaction(part, progress))
  {
    HandlerReactionOk(part, progress);
  }

  lemma {:induction false} CalmRetry(cfg: Config, part: Partition, i: nat, progress: Progress, rewindPermanent: bool, advance: Resumption)
    requires PartitionOk(part) && i < |part.tasks|
    requires part.tasks[i].phase.Begin? ==> part.tasks[i].attempt <= cfg.maxRetries
    requires progress.Returned? ||
             (progress.Continue? && Rank(progress.phase) < Rank(part.tasks[i].phase))
    ensures Nearer(cfg, part, TaskReaction(part, i, progress, Fine, rewindPermanent, advance))
  {
    TaskReactionOk(part, i, progress, Fine, rewindPermanent, advance);
    OnlyTask(part.tasks, i);
    assert TaskOk(part, part.tasks[0]);
  }

  lemma {:induction false} CalmGiveUp(cfg: Config, part: Partition, i: nat)
    requires PartitionOk(part) && i < |part.tasks| && Spent(cfg, part.tasks[i])
    ensures Nearer(cfg, part, AdvanceConsumer(Record(part, part.tasks[i].offset, SkippedMaxRetries), i, Fine))
  {
    var noted := Record(part, part.tasks[i].offset, SkippedMaxRetries);
    OnlyTask(part.tasks, i);
    assert TaskOk(part, part.tasks[0]);
    AdvanceConsumerOk(part, noted, i, Fine, Raised(true));
  }

  lemma {:induction false} CalmDeliver(cfg: Config, part: Partition)
    requires PartitionOk(part) && part.Idle() && part.position < |part.log|
    requires PartitionOk(part.(position := part.position + 1, handling := Some(Job(part.position, Begin))))
    ensures Nearer(cfg, part, part.(position := part.position + 1, handling := Some(Job(part.position, Begin))))
  {
  }

  ghost predicate NoNewLosses(cfg: Config, s: State, t: State)
    requires |s.partitions| == |t.partitions| == cfg.count
  {
    forall p: nat, o: nat :: p < cfg.count && Lost(cfg, t.partitions[p], o) ==> Lost(cfg, s.partitions[p], o)
  }

  /** What a calm step of the worker does. */
  ghost predicate Calmed(cfg: Config, s: State, t: State, p: nat)
    requires p < |s.partitions|
  {
    && |t.partitions| == |s.partitions|
    && t.partitions == s.partitions[p := t.partitions[p]]
    && Nearer(cfg, s.partitions[p], t.partitions[p])
    && t.unpublished == s.unpublished && t.source == s.source
  }

  lemma {:induction false} CalmHandlerStep(cfg: Config, s: State, step: Step)
    requires Wf(cfg, s) && Enabled(cfg, s, step) && Calm(step) && step.Handler?
    ensures Calmed(cfg, s, Apply(cfg, s, step), step.p)
  {
    var part := s.partitions[step.p];
    assert PartitionOk(part);
    CalmReplicate(cfg, part.log[part.handling.value.offset], part.handling.value.phase, s.source, s.target, step.call);
    CalmHandler(cfg, part, ProgressOf(cfg, s, step));
  }

  lemma {:induction false} CalmRetryStep(cfg: Config, s: State, step: Step)
    requires Wf(cfg, s) && Enabled(cfg, s, step) && Calm(step) && step.Retry?
    ensures Calmed(cfg, s, Apply(cfg, s, step), step.p)
  {
    var part := s.partitions[step.p];
    assert PartitionOk(part);
    assert TaskOk(part, part.tasks[step.i]);
    CalmReplicate(cfg, part.log[part.tasks[step.i].offset], part.tasks[step.i].phase, s.source, s.target, step.call);
    CalmRetry(cfg, part, step.i, ProgressOf(cfg, s, step), step.rewindPermanent, step.advance);
  }

  lemma {:induction false} CalmWork(cfg: Config, s: State, step: Step)
    requires Wf(cfg, s) && Enabled(cfg, s, step) && Calm(step) && !step.Publish?
    ensures Calmed(cfg, s, Apply(cfg, s, step), step.p)
  {
    match step
    case Deliver(p) =>
      DeliverOk(cfg, s, p);
      CalmDeliver(cfg, s.partitions[p]);
    case Handler(p, call) => CalmHandlerStep(cfg, s, step);
    case Retry(_, _, _, _, _, _) => CalmRetryStep(cfg, s, step);
    case GiveUp(p, i, advance) =>
      assert PartitionOk(s.partitions[p]);
      CalmGiveUp(cfg, s.partitions[p], i);
  }

  /** Every calm step brings the end nearer and loses nothing. */
  lemma {:induction false} CalmStepProgress(cfg: Config, s: State, step: Step)
    requires Wf(cfg, s) && Enabled(cfg, s, step) && Calm(step)
    ensures var t := Apply(cfg, s, step);
            && Wf(cfg, t) && t.source == s.source
            && Total(t) < Total(s)
            && NoNewLosses(cfg, s, t)
  {
    StepWf(cfg, s, step);
    var t := Apply(cfg, s, step);
    if step.Publish? {
      var p := cfg.route(step.key);
      assert PartitionOk(s.partitions[p]) && PartitionOk(t.partitions[p]);
      SumUpdate(s.partitions, p, t.partitions[p]);
      assert t.unpublished.Keys == s.unpublished.Keys - {step.key};
      assert |t.unpublished.Keys| == |s.unpublished.Keys| - 1;
    } else {
      CalmWork(cfg, s, step);
      SumUpdate(s.partitions, step.p, t.partitions[step.p]);
    }
  }

  /** `t` has the source of `s` and has lost nothing more. */
  ghost predicate Onward(cfg: Config, s: State, t: State) {
    Wf(cfg, s) ==> Wf(cfg, t) && t.source == s.source && NoNewLosses(cfg, s, t)
  }

  lemma {:induction false} OnwardTrans(cfg: Config, s: State, u: State, t: State)
    requires Onward(cfg, s, u) && Onward(cfg, u, t)
    ensures Onward(cfg, s, t)
  {
  }

  lemma {:induction false} CalmGains(cfg: Config, s: State, t: State)
    requires CalmSteps(cfg)(s, t)
    ensures Onward(cfg, s, t) && Wf(cfg, t) && Total(t) < Total(s)
  {
    var step :| Enabled(cfg, s, step) && Calm(step) && t == Apply(cfg, s, step);
    CalmStepProgress(cfg, s, step);
  }

  /** A calm step of a state that is not finished. */
  lemma {:induction false} CalmStepExists(cfg: Config, s: State) returns (step: Step)
    requires Wf(cfg, s) && !Finished(s)
    ensures Enabled(cfg, s, step) && Calm(step)
  {
    if k :| k in s.unpublished {
      step := Publish(k);
    } else {
      var p: nat :| p < |s.partitions| && !Drained(s.partitions[p]);
      var part := s.partitions[p];
      var call := Call(NoFault, false, [], true);
      assert PartitionOk(part);
      if part.tasks != [] {
        step := if Spent(cfg, part.tasks[0]) then GiveUp(p, 0, Fine) else Retry(p, 0, call, Fine, false, Fine);
      } else if part.handling.Some? {
        step := Handler(p, call);
      } else {
        step := Deliver(p);
      }
    }
  }

  lemma {:induction false} FinishedStops(cfg: Config, s: State, step: Step)
    requires Wf(cfg, s) && Finished(s) && Enabled(cfg, s, step)
    ensures !Calm(step)
  {
  }

  /** The key agrees in `t`; or its last message was lost by `s`; or it was never written and differed
      at the start. */
  ghost predicate Accounted(cfg: Config, s0: State, s: State, t: State, k: Key)
    requires Wf(cfg, s) && Wf(cfg, t)
  {
    var last := LastOf(cfg, t, k);
    || Agree(t, k)
    || (if last >= 0 then Lost(cfg, s.partitions[cfg.route(k)], last) else !Agree(s0, k))
  }

  lemma {:induction false} FinishedKey(cfg: Config, s0: State, s: State, t: State, k: Key)
    requires Wf(cfg, s) && Inv(cfg, t) && NoNewLosses(cfg, s, t) && Untouched(cfg, s0, t, k)
    requires Finished(t)
    ensures Accounted(cfg, s0, s, t, k)
  {
    assert KeyOk(cfg, t, k);
    var p := cfg.route(k);
    var last := LastOf(cfg, t, k);
    assert PartitionOk(t.partitions[p]) && Drained(t.partitions[p]);
    if last >= 0 {
      var o: nat := last;
      assert !t.partitions[p].On(o);
      assert Lost(cfg, t.partitions[p], o) ==> Lost(cfg, s.partitions[p], o);
    }
  }

  lemma {:induction false} AllAccounted(cfg: Config, s0: State, s: State, t: State)
    requires Wf(cfg, s) && Kept(cfg, s0, t) && NoNewLosses(cfg, s, t) && Finished(t)
    ensures forall k :: Accounted(cfg, s0, s, t, k)
  {
    forall k ensures Accounted(cfg, s0, s, t, k) {
      assert Untouched(cfg, s0, t, k);
      FinishedKey(cfg, s0, s, t, k);
    }
  }

  /** No calm step is left. */
  ghost predicate Stuck(cfg: Config, s: State) {
    forall t :: !CalmSteps(cfg)(s, t)
  }

  /** A calm run can go on exactly until everything is finished. */
  lemma {:induction false} FinishedIff(cfg: Config, s: State)
    requires Wf(cfg, s)
    ensures Finished(s) <==> Stuck(cfg, s)
  {
    if Finished(s) {
      forall t ensures !CalmSteps(cfg)(s, t) {
        if CalmSteps(cfg)(s, t) {
          var step :| Enabled(cfg, s, step) && Calm(step) && t == Apply(cfg, s, step);
          FinishedStops(cfg, s, step);
        }
      }
    } else {
      var step := CalmStepExists(cfg, s);
      assert CalmSteps(cfg)(s, Apply(cfg, s, step));
    }
  }

  lemma {:induction false} CalmRunKept(cfg: Config, s0: State, s: State, t: State, n: nat)
    requires Kept(cfg, s0, s) && Reaches(CalmSteps(cfg), s, t, n)
    ensures Kept(cfg, s0, t)
  {
    forall a, b | Kept(cfg, s0, a) && CalmSteps(cfg)(a, b) ensures Kept(cfg, s0, b) {
      assert Next(cfg, a, b);
      NextKept(cfg, s0, a, b);
    }
    ReachesKeeps(CalmSteps(cfg), a => Kept(cfg, s0, a), s, t, n);
  }

  lemma {:induction false} CalmRunGains(cfg: Config, s: State, t: State, n: nat)
    requires Wf(cfg, s) && Reaches(CalmSteps(cfg), s, t, n)
    ensures Wf(cfg, t) && t.source == s.source && n <= Total(s) && NoNewLosses(cfg, s, t)
  {
    forall a, b | CalmSteps(cfg)(a, b) ensures Onward(cfg, a, b) && Total(b) < Total(a) {
      CalmGains(cfg, a, b);
    }
    forall a, b, c | Onward(cfg, a, b) && Onward(cfg, b, c) ensures Onward(cfg, a, c) {
      OnwardTrans(cfg, a, b, c);
    }
    ReachesGain(CalmSteps(cfg), (a, b) => Onward(cfg, a, b), Total, s, t, n);
  }

  /** Once faults and client writes cease, every run is bounded in length and can only end when
      everything is published and every partition drained. */
  lemma {:induction false} CalmRunsEnd(cfg: Config, s0: State, s: State, m: nat, t: State, n: nat)
    requires Run(cfg, s0, s, m) && Reaches(CalmSteps(cfg), s, t, n)
    ensures n <= Total(s)
    ensures Finished(t) <==> Stuck(cfg, t)
  {
    RunWf(cfg, s0, s, m);
    CalmRunGains(cfg, s, t, n);
    FinishedIff(cfg, t);
  }

  /** Eventual agreement: where any such run ends every key agrees, except those whose last message
      had been skipped, or had used up its retries, before the faults ceased, and those never written
      that differed at the start. */
  lemma {:induction false} EventualAgreement(cfg: Config, s0: State, s: State, m: nat, t: State, n: nat)
    requires Run(cfg, s0, s, m) && Reaches(CalmSteps(cfg), s, t, n) && Finished(t)
    ensures Wf(cfg, s) && Wf(cfg, t) && t.source == s.source
    ensures forall k :: Accounted(cfg, s0, s, t, k)
  {
    RunKept(cfg, s0, s, m);
    CalmRunGains(cfg, s, t, n);
    CalmRunKept(cfg, s0, s, t, n);
    AllAccounted(cfg, s0, s, t);
  }

  /** Such an ending exists: from every state of a run a calm run leads to a finished one. */
  lemma {:induction false} CalmRunExists(cfg: Config, s0: State, s: State, m: nat) returns (t: State, n: nat)
    requires Run(cfg, s0, s, m)
    ensures Reaches(CalmSteps(cfg), s, t, n) && Finished(t)
  {
    RunWf(cfg, s0, s, m);
    forall a, b | CalmSteps(cfg)(a, b) ensures Wf(cfg, b) && Total(b) < Total(a) {
      CalmGains(cfg, a, b);
    }
    forall a | Wf(cfg, a) && !Finished(a) ensures exists b :: CalmSteps(cfg)(a, b) {
      FinishedIff(cfg, a);
    }
    t, n := ReachesEnd(CalmSteps(cfg), a => Wf(cfg, a), Finished, Total, s);
  }
}
