/**
 What each step of the batch worker does, told from the outside: by the fault of its backend call and
 the raises of seek and resume, in terms of partitions, jobs and targets alone.
 */
module BatchSteps {
  import opened Common
  import opened Consumer
  import opened BatchRuns
  import Worker
  import WorkerSteps

  /** Nothing but partition `p`, the jobs and the targets changes. */
  ghost predicate OnlyPartition(s: State, t: State, p: nat) {
    && t.source == s.source && t.unpublished == s.unpublished
    && |t.parts| == |s.parts| && p < |s.parts|
    && forall q :: 0 <= q < |s.parts| && q != p ==> t.parts[q] == s.parts[q]
  }

  /** Only the store of `x` may have changed. */
  ghost predicate OnlyTarget(s: State, t: State, x: Name) {
    t.targets.Keys == s.targets.Keys && forall y :: y != x ==> Lookup(t.targets, y) == Lookup(s.targets, y)
  }

  predicate MakesCall(cfg: Worker.Config, s: State, job: Job)
    requires job.p < |s.parts| && job.offset < |s.parts[job.p].log|
  {
    WorkerSteps.MakesCall(cfg, s.parts[job.p].log[job.offset], job.phase)
  }

  /** The replication to the present target comes to an end without an error. */
  predicate Arrives(cfg: Worker.Config, s: State, job: Job, call: Worker.Call)
    requires job.p < |s.parts| && job.offset < |s.parts[job.p].log|
    requires job.i < |job.todo| && job.todo[job.i] in s.targets
  {
    Worker.Replicate(cfg, s.parts[job.p].log[job.offset], job.phase, s.source, s.targets[job.todo[job.i]],
                     call).0.Returned?
  }

  /** The stores once the call has done to the present target what it does. */
  function Written(cfg: Worker.Config, s: State, job: Job, call: Worker.Call): Stores
    requires job.p < |s.parts| && job.offset < |s.parts[job.p].log|
    requires job.i < |job.todo| && job.todo[job.i] in s.targets
  {
    s.targets[job.todo[job.i] :=
      Worker.Replicate(cfg, s.parts[job.p].log[job.offset], job.phase, s.source, s.targets[job.todo[job.i]], call).1]
  }

  /** The job is at its next target, with one outcome more in its partition. */
  predicate MovesOn(part: Partition, after: Partition, job: Job, next: Job, outcome: Outcome)
    requires job.i < |job.todo|
  {
    && after == part.(outcomes := part.outcomes[(job.offset, job.todo[job.i]) := outcome])
    && next == job.(i := job.i + 1, phase := Worker.Begin)
  }

  /** One call of a job's replication: a transient error leaves the target over, with nothing recorded; a
      permanent one records its skip; success is recorded when the replication has arrived. */
  predicate CallIs(cfg: Worker.Config, s: State, part: Partition, after: Partition, job: Job, next: Job,
                   call: Worker.Call)
    requires job.p < |s.parts| && job.offset < |s.parts[job.p].log|
    requires job.i < |job.todo| && job.todo[job.i] in s.targets
  {
    var x := job.todo[job.i];
    if MakesCall(cfg, s, job) && call.fault.TransientFault? then
      after == part && next == job.(i := job.i + 1, left := job.left + [x], phase := Worker.Begin)
    else if MakesCall(cfg, s, job) && call.fault.PermanentFault? then
      MovesOn(part, after, job, next, SkippedPermanent)
    else if Arrives(cfg, s, job, call) then MovesOn(part, after, job, next, Success)
    else after == part && next == job.(phase := next.phase) && !next.phase.Begin?
  }

  lemma {:induction false} TurnIs(cfg: Worker.Config, s: State, job: Job, call: Worker.Call)
    requires job.p < |s.parts| && job.offset < |s.parts[job.p].log|
    requires job.i < |job.todo| && job.todo[job.i] in s.targets
    ensures var progress := Work(cfg, s, job, call).0;
            var part := s.parts[job.p];
            CallIs(cfg, s, part, Record(part, job.offset, job.todo[job.i], Settles(progress)), job,
                   Turn(job, progress), call)
    ensures OnlyTarget(s, s.(targets := Work(cfg, s, job, call).1), job.todo[job.i])
  {
    var m := s.parts[job.p].log[job.offset];
    WorkerSteps.RaisesIff(cfg, m, job.phase, s.source, s.targets[job.todo[job.i]], call);
    WorkerSteps.RetryPhase(cfg, m, job.phase, s.source, s.targets[job.todo[job.i]], call);
  }

  /** One call of the handler.  A target the pool does not know is poison. */
  lemma {:induction false} HandleIs(cfg: Worker.Config, s: State, call: Worker.Call)
    requires Wf(cfg, s) && Enabled(cfg, s, Handle(call))
    ensures var job, t := s.handling.value, Apply(cfg, s, Handle(call));
            && job.p < |s.parts| && job.offset < |s.parts[job.p].log|
            && OnlyPartition(s, t, job.p) && OnlyTarget(s, t, job.todo[job.i])
            && t.handling.Some? && t.tasks == s.tasks
            && if job.todo[job.i] in s.targets
               then CallIs(cfg, s, s.parts[job.p], t.parts[job.p], job, t.handling.value, call)
                    && t.targets == Written(cfg, s, job, call)
               else t.targets == s.targets
                    && MovesOn(s.parts[job.p], t.parts[job.p], job, t.handling.value, SkippedPoison)
  {
    var job := s.handling.value;
    OneJob(s);
    assert JobOk(s, Jobs(s)[0]);
    if job.todo[job.i] in s.targets {
      TurnIs(cfg, s, job, call);
    }
  }

  /** One call of the task; a round begins only while attempts are left. */
  lemma {:induction false} RetryIs(cfg: Worker.Config, s: State, n: nat, call: Worker.Call)
    requires Wf(cfg, s) && Enabled(cfg, s, Retry(n, call))
    ensures var job, t := s.tasks[n], Apply(cfg, s, Retry(n, call));
            && job.p < |s.parts| && job.offset < |s.parts[job.p].log|
            && OnlyPartition(s, t, job.p) && OnlyTarget(s, t, job.todo[job.i])
            && t.handling.None? && |t.tasks| == 1
            && CallIs(cfg, s, s.parts[job.p], t.parts[job.p], job, t.tasks[0], call)
            && t.targets == Written(cfg, s, job, call)
            && (job.i == 0 && job.phase.Begin? ==> job.attempt <= cfg.maxRetries)
  {
    OneJob(s);
    OneTask(s.tasks, n);
    assert JobOk(s, Jobs(s)[0]);
    TurnIs(cfg, s, s.tasks[n], call);
  }

  /** What each actor waits for. */
  lemma {:induction false} PossibleIff(cfg: Worker.Config, s: State, call: Worker.Call, how: Resumption)
    requires Wf(cfg, s)
    ensures s.handling.Some? ==>
              var job := s.handling.value;
              && (Enabled(cfg, s, Poison) <==> job.i == 0 && job.left == [] && job.phase.Begin?)
              && (Enabled(cfg, s, Handle(call)) <==> job.i < |job.todo|)
              && (Enabled(cfg, s, EndHandling) <==> !Enabled(cfg, s, Handle(call)))
    ensures s.tasks != [] ==>
              var job := s.tasks[0];
              var begins := job.i == 0 && job.phase.Begin?;
              && (Enabled(cfg, s, GiveUp(0, how)) <==> begins && job.left == [] && job.attempt > cfg.maxRetries)
              && (Enabled(cfg, s, EndRound(0, how)) <==> job.i == |job.todo|)
              && (Enabled(cfg, s, Retry(0, call)) <==>
                    && job.i < |job.todo| && job.todo[job.i] in s.targets
                    && (begins ==> job.attempt <= cfg.maxRetries))
  {
    OneJob(s);
    assert Jobs(s) != [] ==> JobOk(s, Jobs(s)[0]);
  }

  predicate LeavesOut(committed: seq<nat>, job: Job) {
    job.p < |committed| && committed[job.p] <= job.offset
  }

  /** A restart needs nothing but committed offsets that leave out no work in progress. */
  lemma {:induction false} RestartIff(cfg: Worker.Config, s: State, committed: seq<nat>)
    requires Wf(cfg, s)
    ensures Enabled(cfg, s, Restart(committed)) <==>
              && |committed| == |s.parts|
              && (forall p :: 0 <= p < |s.parts| ==> committed[p] <= s.parts[p].position)
              && (s.handling.Some? ==> LeavesOut(committed, s.handling.value))
              && (s.tasks != [] ==> LeavesOut(committed, s.tasks[0]))
  {
    OneJob(s);
    assert Jobs(s) != [] ==> JobOk(s, Jobs(s)[0]);
  }

  /** A message is delivered when no handler runs and no task lives. */
  lemma {:induction false} DeliverableIff(cfg: Worker.Config, s: State, p: nat)
    requires Wf(cfg, s) && p < cfg.count
    ensures Enabled(cfg, s, Deliver(p)) <==>
              s.handling.None? && s.tasks == [] && s.parts[p].position < |s.parts[p].log|
  {
  }

  // ---------------------------------------------------------------- rounds

  /** Everything is as before but for pauses. */
  ghost predicate OnlyPauses(s: State, t: State, paused: bool) {
    && t.source == s.source && t.unpublished == s.unpublished && t.targets == s.targets
    && |t.parts| == |s.parts|
    && forall q :: 0 <= q < |s.parts| ==> t.parts[q] == s.parts[q].(paused := paused)
  }

  /** The handler ends a message that failed for no target, or pauses everything and hands those targets
      over to the one task, at attempt 1. */
  lemma {:induction false} EndHandlingIs(cfg: Worker.Config, s: State)
    requires Wf(cfg, s) && Enabled(cfg, s, EndHandling)
    ensures var job, t := s.handling.value, Apply(cfg, s, EndHandling);
            && t.handling.None?
            && if job.left == [] then t == s.(handling := None)
               else && OnlyPauses(s, t, true)
                    && t.tasks == [Job(job.p, job.offset, 1, job.left, 0, [], Worker.Begin)]
  {
    OneJob(s);
  }

  /** The task has tried to move its partition to `to` and resume everything: it is over, or a seek or
      resume has raised and it goes round once more with the same targets and the next attempt. */
  ghost predicate SeekAndResume(s: State, t: State, job: Job, to: nat, how: Resumption) {
    && t.source == s.source && t.unpublished == s.unpublished && t.targets == s.targets && t.handling.None?
    && |t.parts| == |s.parts|
    && (forall q :: 0 <= q < |s.parts| ==>
          t.parts[q] == s.parts[q].(position := if q == job.p && !how.SeekRaises? then to else s.parts[q].position,
                                    paused := !how.Fine?))
    && t.tasks == if how.Fine? then []
                  else [Job(job.p, job.offset, job.attempt + 1, job.todo, 0, [], Worker.Begin)]
  }

  lemma {:induction false} LeaveIs(s: State, n: nat, o: nat, resume: Resumption)
    requires Exclusive(s) && n < |s.tasks| && s.tasks[n].p < |s.parts|
    ensures SeekAndResume(s, Leave(s, n, o, resume), s.tasks[n], o, resume)
  {
    OneTask(s.tasks, n);
  }

  /** A round that leaves targets over starts the next one with exactly those and the next attempt; one
      that does not rewinds to the message and resumes. */
  lemma {:induction false} EndRoundIs(cfg: Worker.Config, s: State, n: nat, resume: Resumption)
    requires Wf(cfg, s) && Enabled(cfg, s, EndRound(n, resume))
    ensures var job, t := s.tasks[n], Apply(cfg, s, EndRound(n, resume));
            if job.left == [] then SeekAndResume(s, t, job, job.offset, resume)
            else t == s.(tasks := [Job(job.p, job.offset, job.attempt + 1, job.left, 0, [], Worker.Begin)])
  {
    OneJob(s);
    OneTask(s.tasks, n);
    assert JobOk(s, Jobs(s)[0]);
    if s.tasks[n].left == [] {
      LeaveIs(s, n, s.tasks[n].offset, resume);
    }
  }

  /** A task out of attempts records that for all targets left to it and moves past the message. */
  lemma {:induction false} GiveUpIs(cfg: Worker.Config, s: State, n: nat, resume: Resumption) returns (noted: State)
    requires Wf(cfg, s) && Enabled(cfg, s, GiveUp(n, resume))
    ensures var job := s.tasks[n];
            && job.p < |s.parts| && job.attempt > cfg.maxRetries
            && OnlyPartition(s, noted, job.p) && noted.targets == s.targets
            && noted.parts[job.p] == s.parts[job.p].(outcomes := noted.parts[job.p].outcomes)
            && (forall o: nat, x :: Lookup(noted.parts[job.p].outcomes, (o, x)) ==
                  if o == job.offset && x in job.todo then Some(SkippedMaxRetries)
                  else Lookup(s.parts[job.p].outcomes, (o, x)))
            && SeekAndResume(noted, Apply(cfg, s, GiveUp(n, resume)), job, job.offset + 1, resume)
  {
    var job := s.tasks[n];
    OneJob(s);
    OneTask(s.tasks, n);
    assert JobOk(s, Jobs(s)[0]);
    noted := SetPart(s, job.p, RecordAll(s.parts[job.p], job.offset, job.todo, SkippedMaxRetries));
    forall o: nat, x ensures Lookup(noted.parts[job.p].outcomes, (o, x)) ==
                             if o == job.offset && x in job.todo then Some(SkippedMaxRetries)
                             else Lookup(s.parts[job.p].outcomes, (o, x)) {
      RecordAllIs(s.parts[job.p], job.offset, job.todo, SkippedMaxRetries, o, x);
    }
    LeaveIs(noted, n, job.offset + 1, resume);
  }

  // ---------------------------------------------------------------- the other steps

  /** Delivering hands the message at the position, with all its targets, to the handler. */
  lemma {:induction false} DeliverIs(cfg: Worker.Config, s: State, p: nat)
    requires Wf(cfg, s) && Enabled(cfg, s, Deliver(p))
    ensures var part, t := s.parts[p], Apply(cfg, s, Deliver(p));
            && part.position < |part.dests|
            && OnlyPartition(s, t, p) && t.targets == s.targets && t.tasks == s.tasks
            && t.parts[p] == part.(position := part.position + 1)
            && t.handling == Some(Job(p, part.position, 0, part.dests[part.position], 0, [], Worker.Begin))
  {
  }

  /** An unreadable message is poison for all its targets. */
  lemma {:induction false} PoisonIs(cfg: Worker.Config, s: State)
    requires Wf(cfg, s) && Enabled(cfg, s, Poison)
    ensures var job, t := s.handling.value, Apply(cfg, s, Poison);
            && OnlyPartition(s, t, job.p) && t.targets == s.targets && t.tasks == s.tasks && t.handling.None?
            && t.parts[job.p] == s.parts[job.p].(outcomes := t.parts[job.p].outcomes)
            && forall o: nat, x :: Lookup(t.parts[job.p].outcomes, (o, x)) ==
                 if o == job.offset && x in job.todo then Some(SkippedPoison)
                 else Lookup(s.parts[job.p].outcomes, (o, x))
  {
    var job := s.handling.value;
    OneJob(s);
    assert JobOk(s, Jobs(s)[0]);
    forall o: nat, x ensures Lookup(RecordAll(s.parts[job.p], job.offset, job.todo, SkippedPoison).outcomes, (o, x)) ==
                             if o == job.offset && x in job.todo then Some(SkippedPoison)
                             else Lookup(s.parts[job.p].outcomes, (o, x)) {
      RecordAllIs(s.parts[job.p], job.offset, job.todo, SkippedPoison, o, x);
    }
  }

  /** A write changes the source at its key and is remembered until it is published. */
  lemma {:induction false} ClientIs(cfg: Worker.Config, s: State, k: Key, body: Bytes, announced: bool)
    requires Wf(cfg, s) && k !in s.unpublished
    ensures Apply(cfg, s, ClientPut(k, body, announced)) ==
            s.(source := s.source[k := body],
               unpublished := s.unpublished[k := Worker.Put(if announced then Some(|body|) else None)])
    ensures Apply(cfg, s, ClientDelete(k)) ==
            s.(source := s.source - {k}, unpublished := s.unpublished[k := Worker.Delete])
  {
  }

  /** Publishing puts the message, with its targets, behind all others of its partition. */
  lemma {:induction false} PublishIs(cfg: Worker.Config, s: State, k: Key, to: seq<Name>)
    requires Wf(cfg, s) && k in s.unpublished
    ensures var p, t := cfg.route(k), Apply(cfg, s, Publish(k, to));
            && p < |s.parts| && t.unpublished == s.unpublished - {k} && t.source == s.source && t.targets == s.targets
            && t.parts == s.parts[p := s.parts[p].(log := s.parts[p].log + [Worker.Message(k, s.unpublished[k])],
                                                   dests := s.parts[p].dests + [to])]
    ensures var p, t := cfg.route(k), Apply(cfg, s, PublishOther(k, to));
            t == s.(parts := s.parts[p := s.parts[p].(log := s.parts[p].log + [Worker.Message(k, Worker.Other)],
                                                      dests := s.parts[p].dests + [to])])
  {
  }

  /** A restart forgets handler, task and pauses, and starts from the committed offsets. */
  lemma {:induction false} RestartIs(cfg: Worker.Config, s: State, committed: seq<nat>)
    requires Wf(cfg, s) && Enabled(cfg, s, Restart(committed))
    ensures var t := Apply(cfg, s, Restart(committed));
            && t.source == s.source && t.unpublished == s.unpublished && t.targets == s.targets
            && t.handling.None? && t.tasks == [] && |t.parts| == |s.parts|
            && forall q :: 0 <= q < |s.parts| ==>
                 t.parts[q] == s.parts[q].(position := committed[q], paused := false)
  {
  }
}
