/**
 What each step of the per-backend worker does, told from the outside: by the fault of its backend
 call and the raises of seek and resume, in terms of the partition and the target alone.
 */
module WorkerSteps {
  import opened Common
  import opened Consumer
  import opened Worker

  // ---------------------------------------------------------------- one replication

  /** The step asks a backend for something, so that it can raise. */
  predicate MakesCall(cfg: Config, m: Message, phase: Phase) {
    m.op.Put? ==>
      match phase
      case Begin => cfg.skipIfEtagMatches
      case Fetched(_) => m.op.length.None?
      case _ => true
  }

  /** The call writes to the target. */
  predicate Writes(m: Message, phase: Phase) {
    m.op.Delete? || (m.op.Put? && phase.Measured?)
  }

  /** A replication raises exactly when its call does, with the call's kind of error, and then the
      target has changed only if a write took effect all the same. */
  lemma {:induction false} RaisesIff(cfg: Config, m: Message, phase: Phase, source: map<Key, Bytes>,
                                     target: map<Key, Bytes>, call: Call)
    ensures var (progress, after) := Replicate(cfg, m, phase, source, target, call);
            && (progress == Raised(true) <==> MakesCall(cfg, m, phase) && call.fault.PermanentFault?)
            && (progress == Raised(false) <==> MakesCall(cfg, m, phase) && call.fault.TransientFault?)
            && (after != target ==> Writes(m, phase) && (call.fault.NoFault? || call.landed))
  {
  }

  /** A write that took effect leaves what it would have left without its error: a delete the key absent,
      a put the body that was fetched, or whatever the backend makes of a wrong length; one that did not
      take effect leaves the target as it was. */
  lemma {:induction false} WritesIs(cfg: Config, m: Message, phase: Phase, source: map<Key, Bytes>,
                                    target: map<Key, Bytes>, call: Call)
    requires Writes(m, phase)
    ensures var after := Replicate(cfg, m, phase, source, target, call).1;
            if call.fault.NoFault? || call.landed then
              && (m.op.Delete? ==> after == target - {m.key})
              && (m.op.Put? && |phase.body| == phase.length ==> after == target[m.key := phase.body])
              && (m.op.Put? && |phase.body| != phase.length ==> after == target[m.key := call.stored])
            else after == target
  {
  }

  /** It returns exactly after a write, when the source has nothing to copy, or when the ETags match. */
  lemma {:induction false} ReturnsIff(cfg: Config, m: Message, phase: Phase, source: map<Key, Bytes>,
                                      target: map<Key, Bytes>, call: Call)
    ensures Replicate(cfg, m, phase, source, target, call).0.Returned? <==>
            && call.fault.NoFault? && MakesCall(cfg, m, phase)
            && (|| Writes(m, phase) || m.op.Other?
                || ((phase.Fetching? || phase.Fetched?) && m.key !in source)
                || (phase.HeadedSource? && Lookup(target, m.key) == Some(phase.seen) && call.etagsEqual))
  {
  }

  /** Calls of one replication, one after the other, as long as it goes on. */
  function Finish(cfg: Config, m: Message, phase: Phase, source: map<Key, Bytes>, target: map<Key, Bytes>,
                  calls: seq<Call>): (Progress, map<Key, Bytes>)
    decreases |calls|
  {
    if calls == [] then (Continue(phase), target)
    else
      var (progress, after) := Replicate(cfg, m, phase, source, target, calls[0]);
      if progress.Continue? then Finish(cfg, m, progress.phase, source, after, calls[1..])
      else (progress, after)
  }

  /** What a phase has seen is what the source holds. */
  predicate SeenIn(phase: Phase, m: Message, source: map<Key, Bytes>) {
    match phase
    case Fetched(body) => Lookup(source, m.key) == Some(body)
    case HeadedSource(seen) => Lookup(source, m.key) == Some(seen)
    case Measured(body, n) => Lookup(source, m.key) == Some(body) && n == |body|
    case _ => true
  }

  /** An undisturbed replication without faults returns within as many calls as the phase's rank, with
      the source's body on the target, or nothing changed if the source has none. */
  lemma {:induction false} PutArrives(cfg: Config, m: Message, phase: Phase, source: map<Key, Bytes>,
                                      target: map<Key, Bytes>, calls: seq<Call>)
    requires m.op.Put? && SeenIn(phase, m, source) && |calls| >= Rank(phase)
    requires forall i :: 0 <= i < |calls| ==> calls[i].fault.NoFault?
    requires m.op.length.Some? && m.key in source ==> m.op.length.value == |source[m.key]|
    ensures var (progress, after) := Finish(cfg, m, phase, source, target, calls);
            && progress.Returned?
            && Lookup(after, m.key) == (if m.key in source then Some(source[m.key]) else Lookup(target, m.key))
            && forall k :: k != m.key ==> Lookup(after, k) == Lookup(target, k)
    decreases |calls|
  {
    var (progress, after) := Replicate(cfg, m, phase, source, target, calls[0]);
    if progress.Continue? {
      assert Rank(progress.phase) < Rank(phase);
      PutArrives(cfg, m, progress.phase, source, after, calls[1..]);
    }
  }

  /** With the ETag shortcut on, a put of what the target already holds returns after two calls, without
      writing. */
  lemma {:induction false} ShortcutTaken(cfg: Config, m: Message, source: map<Key, Bytes>, target: map<Key, Bytes>,
                                         calls: seq<Call>)
    requires cfg.skipIfEtagMatches && m.op.Put? && m.key in source && Lookup(target, m.key) == Some(source[m.key])
    requires |calls| == 2 && calls[0].fault.NoFault? && calls[1].fault.NoFault? && calls[1].etagsEqual
    ensures Finish(cfg, m, Begin, source, target, calls) == (Returned, target)
  {
    assert Finish(cfg, m, HeadedSource(source[m.key]), source, target, calls[1..]) == (Returned, target);
  }

  /** A delete that is not disturbed leaves the key absent, and nothing else changed. */
  lemma {:induction false} DeleteArrives(cfg: Config, m: Message, phase: Phase, source: map<Key, Bytes>,
                                         target: map<Key, Bytes>, call: Call)
    requires m.op.Delete? && call.fault.NoFault?
    ensures var (progress, after) := Replicate(cfg, m, phase, source, target, call);
            progress.Returned? && forall k :: Lookup(after, k) == if k == m.key then None else Lookup(target, k)
  {
  }

  // ---------------------------------------------------------------- what can happen

  /** What each actor waits for: a delivery for an idle unpaused partition with messages left, a retry for
      attempts left at the start of a round, a restart for nothing but a committed offset that leaves out
      no work in progress. */
  lemma {:induction false} PossibleIff(cfg: Config, s: State, p: nat, call: Call, how: Resumption, committed: nat)
    requires Wf(cfg, s) && p < cfg.count
    ensures var part := s.partitions[p];
            && (Enabled(cfg, s, Deliver(p)) <==>
                  part.handling.None? && part.tasks == [] && part.position < |part.log|)
            && (Enabled(cfg, s, Handler(p, call)) <==> part.handling.Some?)
            && (Enabled(cfg, s, Poison(p)) <==> part.handling.Some? && part.handling.value.phase.Begin?)
            && (part.tasks != [] ==>
                  var task := part.tasks[0];
                  && (Enabled(cfg, s, GiveUp(p, 0, how)) <==> task.phase.Begin? && task.attempt > cfg.maxRetries)
                  && (Enabled(cfg, s, Retry(p, 0, call, how, false, how)) <==> !Enabled(cfg, s, GiveUp(p, 0, how))))
            && (Enabled(cfg, s, Restart(p, committed)) <==>
                  && committed <= part.position
                  && (part.handling.Some? ==> committed <= part.handling.value.offset)
                  && (part.tasks != [] ==> committed <= part.tasks[0].offset))
  {
    var part := s.partitions[p];
    assert PartitionOk(part);
    assert part.tasks != [] ==> part.On(part.tasks[0].offset);
    assert part.handling.Some? ==> part.On(part.handling.value.offset);
  }

  // ---------------------------------------------------------------- the handler

  /** The step changes nothing of the source and of other partitions. */
  ghost predicate OnlyPartition(s: State, t: State, p: nat) {
    && t.source == s.source && t.unpublished == s.unpublished
    && |t.partitions| == |s.partitions| && p < |s.partitions|
    && forall q :: 0 <= q < |s.partitions| && q != p ==> t.partitions[q] == s.partitions[q]
  }

  /** Delivering hands the message at the position to the handler and moves on by one. */
  lemma {:induction false} DeliverIs(cfg: Config, s: State, p: nat)
    requires Wf(cfg, s) && Enabled(cfg, s, Deliver(p))
    ensures var part, t := s.partitions[p], Apply(cfg, s, Deliver(p));
            && OnlyPartition(s, t, p) && t.target == s.target
            && t.partitions[p] == Partition(part.log, part.position + 1, false, Some(Job(part.position, Begin)), [],
                                            part.outcomes)
  {
    assert PartitionOk(s.partitions[p]);
  }

  /** Unreadable messages are recorded as poison and left behind. */
  lemma {:induction false} PoisonIs(cfg: Config, s: State, p: nat)
    requires Wf(cfg, s) && Enabled(cfg, s, Poison(p))
    ensures var part, t := s.partitions[p], Apply(cfg, s, Poison(p));
            && OnlyPartition(s, t, p) && t.target == s.target
            && t.partitions[p] == Partition(part.log, part.position, false, None, [],
                                            part.outcomes[part.handling.value.offset := SkippedPoison])
  {
    assert PartitionOk(s.partitions[p]);
  }

  /** The message the handler is working on. */
  function HandledMessage(part: Partition): Message
    requires part.handling.Some? && part.handling.value.offset < |part.log|
  {
    part.log[part.handling.value.offset]
  }

  /** A transient error of the handler's call pauses the partition and starts the one retry task, at
      attempt 1, with nothing recorded; a permanent one records the skip, with no task and no pause. */
  lemma {:induction false} HandlerOnFault(cfg: Config, s: State, p: nat, call: Call)
    requires Wf(cfg, s) && Enabled(cfg, s, Handler(p, call))
    ensures var part, t := s.partitions[p], Apply(cfg, s, Handler(p, call));
            var o := part.handling.value.offset;
            && o < |part.log| && OnlyPartition(s, t, p)
            && (MakesCall(cfg, HandledMessage(part), part.handling.value.phase) && call.fault.TransientFault? ==>
                  t.partitions[p] == Partition(part.log, part.position, true, None, [Task(o, 1, Begin)], part.outcomes))
            && (MakesCall(cfg, HandledMessage(part), part.handling.value.phase) && call.fault.PermanentFault? ==>
                  t.partitions[p] == Partition(part.log, part.position, false, None, [],
                                               part.outcomes[o := SkippedPermanent]))
  {
    assert PartitionOk(s.partitions[p]);
  }

  /** Without an error the handler goes on with the same message, or records its success and is done. */
  lemma {:induction false} HandlerWithoutFault(cfg: Config, s: State, p: nat, call: Call)
    requires Wf(cfg, s) && Enabled(cfg, s, Handler(p, call))
    ensures var part, t := s.partitions[p], Apply(cfg, s, Handler(p, call));
            var job := part.handling.value;
            && job.offset < |part.log|
            && var m := part.log[job.offset];
               (call.fault.NoFault? || !MakesCall(cfg, m, job.phase) ==>
                  if Replicate(cfg, m, job.phase, s.source, s.target, call).0.Returned?
                  then t.partitions[p] == Partition(part.log, part.position, false, None, [],
                                                    part.outcomes[job.offset := Success])
                  else && t.partitions[p].handling.Some? && t.partitions[p].handling.value.offset == job.offset
                       && t.partitions[p] == part.(handling := t.partitions[p].handling))
  {
    assert PartitionOk(s.partitions[p]);
  }

  // ---------------------------------------------------------------- the retry task

  /** The partition whose task, at offset `o`, has tried to move the position to `to` and resume: it is
      over, or a seek or resume has raised and it goes round once more, with the next attempt. */
  predicate SeekAndResume(part: Partition, after: Partition, task: Task, to: nat, how: Resumption,
                          outcomes: map<nat, Outcome>)
  {
    match how
    case Fine => after == Partition(part.log, to, false, None, [], outcomes)
    case SeekRaises =>
      after == Partition(part.log, part.position, true, None, [Task(task.offset, task.attempt + 1, Begin)], outcomes)
    case ResumeRaises =>
      after == Partition(part.log, to, true, None, [Task(task.offset, task.attempt + 1, Begin)], outcomes)
  }

  /** A transient error of the task's call keeps the partition paused and the task alive, with the next
      attempt and nothing recorded; a permanent one records the skip and moves past the message. */
  lemma {:induction false} RetryOnFault(cfg: Config, s: State, step: Step)
    requires Wf(cfg, s) && step.Retry? && Enabled(cfg, s, step)
    ensures var part, t := s.partitions[step.p], Apply(cfg, s, step);
            var task := part.tasks[step.i];
            && task.offset < |part.log| && OnlyPartition(s, t, step.p)
            && (MakesCall(cfg, part.log[task.offset], task.phase) && step.call.fault.TransientFault? ==>
                  t.partitions[step.p] == Partition(part.log, part.position, true, None,
                                                    [Task(task.offset, task.attempt + 1, Begin)], part.outcomes))
            && (MakesCall(cfg, part.log[task.offset], task.phase) && step.call.fault.PermanentFault? ==>
                  SeekAndResume(part, t.partitions[step.p], task, task.offset + 1, step.advance,
                                part.outcomes[task.offset := SkippedPermanent]))
  {
    var part := s.partitions[step.p];
    assert PartitionOk(part) && TaskOk(part, part.tasks[step.i]);
    OnlyTask(part.tasks, step.i);
  }

  /** Handler and task do to the target what their replication's call does. */
  lemma {:induction false} TargetIs(cfg: Config, s: State, step: Step)
    requires Wf(cfg, s) && (step.Handler? || step.Retry?) && Enabled(cfg, s, step)
    ensures var part := s.partitions[step.p];
            var (o, phase) := if step.Retry? then (part.tasks[step.i].offset, part.tasks[step.i].phase)
                              else (part.handling.value.offset, part.handling.value.phase);
            && o < |part.log|
            && Apply(cfg, s, step).target == Replicate(cfg, part.log[o], phase, s.source, s.target, step.call).1
  {
    var part := s.partitions[step.p];
    assert PartitionOk(part);
    assert step.Retry? ==> TaskOk(part, part.tasks[step.i]);
  }

  /** The partition after the task's replication has returned: success is recorded and the task rewinds
      to the message; a rewind that raises is an error of its own. */
  predicate AfterReturn(part: Partition, after: Partition, task: Task, step: Step)
    requires step.Retry?
  {
    if step.rewind.Fine? || !step.rewindPermanent then
      SeekAndResume(part, after, task, task.offset, step.rewind, part.outcomes[task.offset := Success])
    else
      SeekAndResume(part.(position := if step.rewind.ResumeRaises? then task.offset else part.position),
                    after, task, task.offset + 1, step.advance, part.outcomes[task.offset := SkippedPermanent])
  }

  lemma {:induction false} ReactionWithoutFault(part: Partition, step: Step, progress: Progress)
    requires PartitionOk(part) && step.Retry? && step.i < |part.tasks| && !progress.Raised?
    ensures var after := TaskReaction(part, step.i, progress, step.rewind, step.rewindPermanent, step.advance);
            var task := part.tasks[step.i];
            if progress.Returned? then AfterReturn(part, after, task, step)
            else after == part.(tasks := [task.(phase := progress.phase)])
  {
    OnlyTask(part.tasks, step.i);
  }

  /** Without an error the task goes on with the same attempt, or has returned. */
  lemma {:induction false} RetryWithoutFault(cfg: Config, s: State, step: Step)
    requires Wf(cfg, s) && step.Retry? && Enabled(cfg, s, step)
    ensures var part, t := s.partitions[step.p], Apply(cfg, s, step);
            var task, after := part.tasks[step.i], t.partitions[step.p];
            && task.offset < |part.log|
            && var m := part.log[task.offset];
               var progress := Replicate(cfg, m, task.phase, s.source, s.target, step.call).0;
               (step.call.fault.NoFault? || !MakesCall(cfg, m, task.phase) ==>
                  if progress.Returned? then AfterReturn(part, after, task, step)
                  else progress.Continue? && after == part.(tasks := [task.(phase := progress.phase)]))
  {
    var part := s.partitions[step.p];
    var task := part.tasks[step.i];
    assert PartitionOk(part) && TaskOk(part, task);
    RaisesIff(cfg, part.log[task.offset], task.phase, s.source, s.target, step.call);
    var progress := Replicate(cfg, part.log[task.offset], task.phase, s.source, s.target, step.call).0;
    if !progress.Raised? {
      ReactionWithoutFault(part, step, progress);
    }
  }

  /** A task out of attempts records that and moves past the message. */
  lemma {:induction false} GiveUpIs(cfg: Config, s: State, step: Step)
    requires Wf(cfg, s) && step.GiveUp? && Enabled(cfg, s, step)
    ensures var part, t := s.partitions[step.p], Apply(cfg, s, step);
            var task := part.tasks[step.i];
            && OnlyPartition(s, t, step.p) && t.target == s.target
            && task.attempt > cfg.maxRetries && task.phase.Begin?
            && SeekAndResume(part, t.partitions[step.p], task, task.offset + 1, step.advance,
                             part.outcomes[task.offset := SkippedMaxRetries])
  {
    var part := s.partitions[step.p];
    assert PartitionOk(part) && TaskOk(part, part.tasks[step.i]);
    OnlyTask(part.tasks, step.i);
  }

  /** A live task never falls back to an earlier attempt; it leaves a round only for the next one; and
      it starts a round only while attempts are left. */
  lemma {:induction false} AttemptsGrow(cfg: Config, s: State, step: Step, p: nat)
    requires Wf(cfg, s) && Enabled(cfg, s, step) && p < cfg.count && !step.Restart?
    requires s.partitions[p].tasks != []
    ensures p < |Apply(cfg, s, step).partitions|
    ensures var task, after := s.partitions[p].tasks[0], Apply(cfg, s, step).partitions[p];
            && (after.tasks != [] ==>
                  || (after.tasks[0].attempt == task.attempt
                      && (task.phase.Begin? || !after.tasks[0].phase.Begin?))
                  || (after.tasks[0].attempt == task.attempt + 1 && after.tasks[0].phase.Begin?))
            && (step.GiveUp? && step.p == p ==> task.attempt > cfg.maxRetries)
            && (step.Retry? && step.p == p && task.phase.Begin? ==> task.attempt <= cfg.maxRetries)
  {
    var part := s.partitions[p];
    assert PartitionOk(part) && TaskOk(part, part.tasks[0]);
    if step.Retry? && step.p == p {
      OnlyTask(part.tasks, step.i);
      RetryPhase(cfg, part.log[part.tasks[0].offset], part.tasks[0].phase, s.source, s.target, step.call);
      TaskReactionIs(part, step, Replicate(cfg, part.log[part.tasks[0].offset], part.tasks[0].phase, s.source,
                                           s.target, step.call).0);
    } else if step.GiveUp? && step.p == p {
      OnlyTask(part.tasks, step.i);
      GiveUpIs(cfg, s, step);
    }
  }

  /** A replication that goes on does not begin again. */
  lemma {:induction false} RetryPhase(cfg: Config, m: Message, phase: Phase, source: map<Key, Bytes>,
                                      target: map<Key, Bytes>, call: Call)
    ensures var progress := Replicate(cfg, m, phase, source, target, call).0;
            progress.Continue? ==> !progress.phase.Begin?
  {
  }

  lemma {:induction false} TaskReactionIs(part: Partition, step: Step, progress: Progress)
    requires PartitionOk(part) && step.Retry? && step.i < |part.tasks|
    requires progress.Continue? ==> !progress.phase.Begin?
    ensures var after := TaskReaction(part, step.i, progress, step.rewind, step.rewindPermanent, step.advance);
            after.tasks != [] ==>
              || (after.tasks[0].attempt == part.tasks[0].attempt && !after.tasks[0].phase.Begin?)
              || (after.tasks[0].attempt == part.tasks[0].attempt + 1 && after.tasks[0].phase.Begin?)
  {
    OnlyTask(part.tasks, step.i);
  }

  // ---------------------------------------------------------------- clients, publisher, restart

  /** A write changes the source at its key and is remembered until it is published, with the body's
      length if that is announced. */
  lemma {:induction false} ClientIs(cfg: Config, s: State, k: Key, body: Bytes, announced: bool)
    requires Wf(cfg, s) && k !in s.unpublished
    ensures Apply(cfg, s, ClientPut(k, body, announced)) ==
            s.(source := s.source[k := body],
               unpublished := s.unpublished[k := Put(if announced then Some(|body|) else None)])
    ensures Apply(cfg, s, ClientDelete(k)) ==
            s.(source := s.source - {k}, unpublished := s.unpublished[k := Delete])
  {
  }

  /** Publishing puts the message behind all others of its partition. */
  lemma {:induction false} PublishIs(cfg: Config, s: State, k: Key)
    requires Wf(cfg, s)
    ensures cfg.route(k) < |s.partitions|
    ensures k in s.unpublished ==>
              var p, t := cfg.route(k), Apply(cfg, s, Publish(k));
              && t.unpublished == s.unpublished - {k} && t.source == s.source && t.target == s.target
              && t.partitions == s.partitions[p := s.partitions[p].(log := s.partitions[p].log
                                                                         + [Message(k, s.unpublished[k])])]
    ensures var p, t := cfg.route(k), Apply(cfg, s, PublishOther(k));
            && OnlyPartition(s, t, p) && t.target == s.target
            && t.partitions[p] == s.partitions[p].(log := s.partitions[p].log + [Message(k, Other)])
  {
  }

  /** A restart forgets handler, task and pause, and starts from the committed offset. */
  lemma {:induction false} RestartIs(cfg: Config, s: State, p: nat, committed: nat)
    requires Wf(cfg, s) && Enabled(cfg, s, Restart(p, committed))
    ensures var part, t := s.partitions[p], Apply(cfg, s, Restart(p, committed));
            && OnlyPartition(s, t, p) && t.target == s.target
            && t.partitions[p] == Partition(part.log, committed, false, None, [], part.outcomes)
  {
  }
}
