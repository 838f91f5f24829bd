/**
 Batch-mode replication as a step system: messages with several targets, one handler for all
 partitions, and a background task that retries the targets a message failed for.  Every backend
 call is a step of its own, so client writes interleave with replications in flight.
 */
module BatchRuns {
  import opened Common
  import opened Runs
  import opened Consumer
  import Worker

  type Key = Worker.Key
  type Name = string
  type Stores = map<Name, map<Key, Bytes>>

  /** Work on one message: the targets to try in this round, the place of the one being tried, those
      that failed transiently in this round, and how far the present replication has come.  The
      handler's work is attempt 0, a task's first round attempt 1. */
  datatype Job = Job(p: nat, offset: nat, attempt: nat, todo: seq<Name>, i: nat, left: seq<Name>,
                     phase: Worker.Phase)
  {
    /** The job has still to settle the target. */
    predicate Owes(x: Name) {
      (i <= |todo| && x in todo[i..]) || x in left
    }

    predicate On(q: nat, o: int) {
      p == q && offset == o
    }
  }

  datatype Partition = Partition(
    log: seq<Worker.Message>,
    dests: seq<seq<Name>>,
    position: nat,
    paused: bool,
    outcomes: map<(nat, Name), Outcome>)

  datatype State = State(
    source: map<Key, Bytes>,
    targets: Stores,
    unpublished: map<Key, Worker.Op>,
    parts: seq<Partition>,
    handling: Option<Job>,
    tasks: seq<Job>)

  datatype Step =
    | ClientPut(key: Key, body: Bytes, announced: bool)
    | ClientDelete(key: Key)
    | Publish(key: Key, to: seq<Name>)
    | PublishOther(key: Key, to: seq<Name>)
    | Deliver(p: nat)
    | Poison
    | Handle(call: Worker.Call)
    | EndHandling
    | Retry(n: nat, call: Worker.Call)
    | EndRound(n: nat, resume: Resumption)
    | GiveUp(n: nat, resume: Resumption)
    | Restart(committed: seq<nat>)

  // ---------------------------------------------------------------- the work on one message

  function Jobs(s: State): seq<Job> {
    (if s.handling.Some? then [s.handling.value] else []) + s.tasks
  }

  /** The job after its present target has come to an end. */
  function NextTarget(job: Job): Job {
    job.(i := job.i + 1, phase := Worker.Begin)
  }

  /** The job after one backend call. */
  function Turn(job: Job, progress: Worker.Progress): Job
    requires job.i < |job.todo|
  {
    match progress
    case Continue(phase) => job.(phase := phase)
    case Returned => NextTarget(job)
    case Raised(permanent) =>
      if permanent then NextTarget(job) else NextTarget(job).(left := job.left + [job.todo[job.i]])
  }

  /** What the call settles for its target. */
  function Settles(progress: Worker.Progress): Option<Outcome> {
    match progress
    case Continue(_) => None
    case Returned => Some(Success)
    case Raised(permanent) => if permanent then Some(SkippedPermanent) else None
  }

  function Record(part: Partition, o: nat, x: Name, outcome: Option<Outcome>): Partition {
    if outcome.None? then part else part.(outcomes := part.outcomes[(o, x) := outcome.value])
  }

  function RecordAll(part: Partition, o: nat, names: seq<Name>, outcome: Outcome): Partition {
    part.(outcomes := map at | at in part.outcomes.Keys + (set x | x in names :: (o, x)) ::
            if at.0 == o && at.1 in names then outcome else part.outcomes[at])
  }

  /** One call of the job's replication to its present target. */
  function Work(cfg: Worker.Config, s: State, job: Job, call: Worker.Call): (Worker.Progress, Stores)
    requires job.p < |s.parts| && job.offset < |s.parts[job.p].log|
    requires job.i < |job.todo| && job.todo[job.i] in s.targets
  {
    var x := job.todo[job.i];
    var (progress, store) :=
      Worker.Replicate(cfg, s.parts[job.p].log[job.offset], job.phase, s.source, s.targets[x], call);
    (progress, s.targets[x := store])
  }

  // ---------------------------------------------------------------- the step system

  function SetPart(s: State, p: nat, part: Partition): State
    requires p < |s.parts|
  {
    s.(parts := s.parts[p := part])
  }

  function PauseAll(parts: seq<Partition>, paused: bool): (r: seq<Partition>)
    ensures |r| == |parts| && forall p :: 0 <= p < |parts| ==> r[p] == parts[p].(paused := paused)
  {
    seq(|parts|, p requires 0 <= p < |parts| => parts[p].(paused := paused))
  }

  function Seek(s: State, p: nat, o: nat): State
    requires p < |s.parts|
  {
    SetPart(s, p, s.parts[p].(position := o))
  }

  /** Seek and resume everything; a raise sends the task round its loop once more. */
  function Leave(s: State, n: nat, o: nat, resume: Resumption): State
    requires n < |s.tasks| && s.tasks[n].p < |s.parts|
  {
    var job := s.tasks[n];
    var again := job.(attempt := job.attempt + 1, i := 0, left := [], phase := Worker.Begin);
    match resume
    case Fine =>
      var moved := Seek(s, job.p, o);
      moved.(parts := PauseAll(moved.parts, false), tasks := s.tasks[..n] + s.tasks[n + 1..])
    case SeekRaises => s.(tasks := s.tasks[n := again])
    case ResumeRaises => Seek(s, job.p, o).(tasks := s.tasks[n := again])
  }

  ghost predicate Wf(cfg: Worker.Config, s: State) {
    && |s.parts| == cfg.count
    && (forall k :: cfg.route(k) < cfg.count)
    && (forall p, o :: 0 <= p < cfg.count && 0 <= o < |s.parts[p].log| ==>
          cfg.route(s.parts[p].log[o].key) == p)
    && (forall p :: 0 <= p < cfg.count ==>
          s.parts[p].position <= |s.parts[p].log| == |s.parts[p].dests| && OutcomesOk(s.parts[p]))
    && Exclusive(s)
    && (forall j :: 0 <= j < |Jobs(s)| ==> JobOk(s, Jobs(s)[j]))
  }

  /** At most one task lives, exactly while all partitions are paused, and then no handler runs. */
  predicate Exclusive(s: State) {
    && |s.tasks| <= 1
    && (s.tasks != [] ==> s.handling.None?)
    && (forall p :: 0 <= p < |s.parts| ==> (s.parts[p].paused <==> s.tasks != []))
  }

  /** Outcomes are only recorded for targets of the message. */
  predicate OutcomesOk(part: Partition) {
    forall at :: at in part.outcomes ==> at.0 < |part.dests| && at.1 in part.dests[at.0]
  }

  predicate JobOk(s: State, job: Job) {
    && job.p < |s.parts|
    && job.offset < |s.parts[job.p].log| == |s.parts[job.p].dests|
    && job.offset <= s.parts[job.p].position <= job.offset + 1
    && job.i <= |job.todo|
    && (forall x :: x in job.todo ==> x in s.parts[job.p].dests[job.offset])
    && (forall x :: x in job.left ==> x in s.parts[job.p].dests[job.offset])
  }

  ghost predicate Enabled(cfg: Worker.Config, s: State, step: Step)
    requires Wf(cfg, s)
  {
    match step
    case ClientPut(k, _, _) => k !in s.unpublished
    case ClientDelete(k) => k !in s.unpublished
    case Publish(k, _) => k in s.unpublished
    case PublishOther(_, _) => true
    case Deliver(p) =>
      p < cfg.count && s.handling.None? && !s.parts[p].paused && s.parts[p].position < |s.parts[p].log|
    case Poison =>
      s.handling.Some? && s.handling.value.i == 0 && s.handling.value.left == [] && s.handling.value.phase.Begin?
    case Handle(_) => s.handling.Some? && s.handling.value.i < |s.handling.value.todo|
    case EndHandling => s.handling.Some? && s.handling.value.i == |s.handling.value.todo|
    case Retry(n, _) =>
      && n < |s.tasks| && s.tasks[n].i < |s.tasks[n].todo| && s.tasks[n].todo[s.tasks[n].i] in s.targets
      && (s.tasks[n].i == 0 && s.tasks[n].phase.Begin? ==> s.tasks[n].attempt <= cfg.maxRetries)
    case EndRound(n, _) => n < |s.tasks| && s.tasks[n].i == |s.tasks[n].todo|
    case GiveUp(n, _) =>
      && n < |s.tasks| && s.tasks[n].i == 0 && s.tasks[n].left == [] && s.tasks[n].phase.Begin?
      && s.tasks[n].attempt > cfg.maxRetries
    case Restart(committed) =>
      && |committed| == cfg.count
      && (forall p :: 0 <= p < cfg.count ==> committed[p] <= s.parts[p].position)
      && (forall j :: 0 <= j < |Jobs(s)| ==> committed[Jobs(s)[j].p] <= Jobs(s)[j].offset)
  }

  ghost function Append(cfg: Worker.Config, s: State, m: Worker.Message, to: seq<Name>): State
    requires Wf(cfg, s)
  {
    var p := cfg.route(m.key);
    SetPart(s, p, s.parts[p].(log := s.parts[p].log + [m], dests := s.parts[p].dests + [to]))
  }

  function Restarted(s: State, committed: seq<nat>): State
    requires |committed| == |s.parts|
  {
    s.(parts := seq(|s.parts|, p requires 0 <= p < |s.parts| =>
                      s.parts[p].(position := committed[p], paused := false)),
       handling := None, tasks := [])
  }

  ghost function Apply(cfg: Worker.Config, s: State, step: Step): State
    requires Wf(cfg, s) && Enabled(cfg, s, step)
  {
    assert s.handling.Some? ==> s.handling.value == Jobs(s)[0];
    assert s.handling.None? ==> Jobs(s) == s.tasks;
    match step
    case ClientPut(k, body, announced) =>
      s.(source := s.source[k := body],
         unpublished := s.unpublished[k := Worker.Put(if announced then Some(|body|) else None)])
    case ClientDelete(k) =>
      s.(source := s.source - {k}, unpublished := s.unpublished[k := Worker.Delete])
    case Publish(k, to) =>
      Append(cfg, s, Worker.Message(k, s.unpublished[k]), to).(unpublished := s.unpublished - {k})
    case PublishOther(k, to) => Append(cfg, s, Worker.Message(k, Worker.Other), to)
    case Deliver(p) =>
      var part := s.parts[p];
      Seek(s, p, part.position + 1)
        .(handling := Some(Job(p, part.position, 0, part.dests[part.position], 0, [], Worker.Begin)))
    case Poison =>
      var job := s.handling.value;
      SetPart(s, job.p, RecordAll(s.parts[job.p], job.offset, job.todo, SkippedPoison)).(handling := None)
    case Handle(call) =>
      var job := s.handling.value;
      var x := job.todo[job.i];
      if x !in s.targets then
        SetPart(s, job.p, Record(s.parts[job.p], job.offset, x, Some(SkippedPoison)))
          .(handling := Some(NextTarget(job)))
      else
        var (progress, targets) := Work(cfg, s, job, call);
        SetPart(s, job.p, Record(s.parts[job.p], job.offset, x, Settles(progress)))
          .(targets := targets, handling := Some(Turn(job, progress)))
    case EndHandling =>
      var job := s.handling.value;
      if job.left == [] then s.(handling := None)
      else
        s.(parts := PauseAll(s.parts, true), handling := None,
           tasks := s.tasks + [Job(job.p, job.offset, 1, job.left, 0, [], Worker.Begin)])
    case Retry(n, call) =>
      var job := s.tasks[n];
      var (progress, targets) := Work(cfg, s, job, call);
      SetPart(s, job.p, Record(s.parts[job.p], job.offset, job.todo[job.i], Settles(progress)))
        .(targets := targets, tasks := s.tasks[n := Turn(job, progress)])
    case EndRound(n, resume) =>
      var job := s.tasks[n];
      if job.left == [] then Leave(s, n, job.offset, resume)
      else
        s.(tasks := s.tasks[n := Job(job.p, job.offset, job.attempt + 1, job.left, 0, [], Worker.Begin)])
    case GiveUp(n, resume) =>
      var job := s.tasks[n];
      Leave(SetPart(s, job.p, RecordAll(s.parts[job.p], job.offset, job.todo, SkippedMaxRetries)),
            n, job.offset + 1, resume)
    case Restart(committed) => Restarted(s, committed)
  }

  ghost predicate Next(cfg: Worker.Config, s: State, t: State) {
    Wf(cfg, s) && exists step :: Enabled(cfg, s, step) && t == Apply(cfg, s, step)
  }

  ghost predicate Init(cfg: Worker.Config, s: State) {
    && |s.parts| == cfg.count
    && (forall k :: cfg.route(k) < cfg.count)
    && s.unpublished == map[] && s.handling.None? && s.tasks == []
    && (forall p :: 0 <= p < cfg.count ==> s.parts[p] == Partition([], [], 0, false, map[]))
  }

  // ---------------------------------------------------------------- the invariant

  ghost function LastOf(cfg: Worker.Config, s: State, k: Key): int
    requires Wf(cfg, s)
  {
    Worker.Last(s.parts[cfg.route(k)].log, k)
  }

  /** The message is below the position or being worked on. */
  ghost predicate Reached(s: State, p: nat, o: int)
    requires p < |s.parts|
  {
    o < s.parts[p].position || exists j :: 0 <= j < |Jobs(s)| && Jobs(s)[j].On(p, o)
  }

  /** The message is recorded as a success for the target, and nobody owes it to the target. */
  ghost predicate Done(s: State, p: nat, o: nat, x: Name)
    requires p < |s.parts|
  {
    && Lookup(s.parts[p].outcomes, (o, x)) == Some(Success)
    && forall j :: 0 <= j < |Jobs(s)| && Jobs(s)[j].On(p, o) ==> !Jobs(s)[j].Owes(x)
  }

  /** No write of `k` waits to be published, and its last message has been reached and is done for
      target `x`. */
  ghost predicate Settled(cfg: Worker.Config, s: State, k: Key, x: Name)
    requires Wf(cfg, s)
  {
    var p, last := cfg.route(k), LastOf(cfg, s, k);
    k !in s.unpublished && last >= 0 && Reached(s, p, last) && Done(s, p, last, x)
  }

  predicate Agree(s: State, k: Key, x: Name) {
    x in s.targets && Lookup(s.source, k) == Lookup(s.targets[x], k)
  }

  ghost predicate FreshJobs(s: State, p: nat, o: nat, k: Key) {
    forall j :: 0 <= j < |Jobs(s)| && Jobs(s)[j].On(p, o) ==> Worker.Fresh(Jobs(s)[j].phase, s.source, k)
  }

  ghost predicate KeyOk(cfg: Worker.Config, s: State, k: Key)
    requires Wf(cfg, s)
  {
    var p, last := cfg.route(k), LastOf(cfg, s, k);
    && (k in s.unpublished ==> Worker.Shows(s.source, k, s.unpublished[k]))
    && (k !in s.unpublished && last >= 0 ==>
          && Worker.Shows(s.source, k, s.parts[p].log[last].op)
          && (s.parts[p].log[last].op.Put? ==> FreshJobs(s, p, last, k)))
  }

  ghost predicate TargetOk(cfg: Worker.Config, s: State, k: Key, x: Name)
    requires Wf(cfg, s)
  {
    KeyOk(cfg, s, k) && (Settled(cfg, s, k, x) ==> Agree(s, k, x))
  }

  /** A message that has been reached has an outcome for each of its targets, or is owed to it. */
  ghost predicate Covered(s: State, p: nat, o: nat, x: Name)
    requires p < |s.parts|
  {
    Reached(s, p, o) && o < |s.parts[p].dests| && x in s.parts[p].dests[o] ==>
      || (o, x) in s.parts[p].outcomes
      || exists j :: 0 <= j < |Jobs(s)| && Jobs(s)[j].On(p, o) && Jobs(s)[j].Owes(x)
  }

  ghost predicate Inv(cfg: Worker.Config, s: State) {
    && Wf(cfg, s)
    && (forall k, x :: TargetOk(cfg, s, k, x))
    && (forall p: nat, o: nat, x :: p < cfg.count ==> Covered(s, p, o, x))
  }

  // ---------------------------------------------------------------- one job at a time

  lemma {:induction false} OneJob(s: State)
    requires Exclusive(s)
    ensures s.handling.Some? ==> Jobs(s) == [s.handling.value]
    ensures s.handling.None? ==> Jobs(s) == s.tasks && (s.tasks == [] || s.tasks == [s.tasks[0]])
    ensures |Jobs(s)| <= 1
  {
  }

  lemma {:induction false} NoJob(s: State)
    ensures s.handling.None? && s.tasks == [] ==> Jobs(s) == []
  {
  }

  lemma {:induction false} OneTask(tasks: seq<Job>, n: nat)
    requires |tasks| <= 1 && n < |tasks|
    ensures n == 0 && tasks[..n] + tasks[n + 1..] == []
    ensures forall t :: tasks[n := t] == [t]
  {
  }

  /** A step of the only job, on message `o` of partition `p`: the job goes on or ends, and nothing
      changes but that message's outcomes, the partition's position, pauses and the targets. */
  ghost predicate JobStep(s: State, t: State, job: Job) {
    && Jobs(s) == [job] && job.p < |s.parts| == |t.parts|
    && t.source == s.source && t.unpublished == s.unpublished
    && (Jobs(t) == [] || (|Jobs(t)| == 1 && Jobs(t)[0].On(job.p, job.offset)))
    && (forall q :: 0 <= q < |s.parts| ==> t.parts[q].log == s.parts[q].log && t.parts[q].dests == s.parts[q].dests)
    && (forall q :: 0 <= q < |s.parts| && q != job.p ==>
          t.parts[q].position == s.parts[q].position && t.parts[q].outcomes == s.parts[q].outcomes)
    && job.offset <= s.parts[job.p].position && t.parts[job.p].position <= job.offset + 1
    && (forall l: nat, x :: l != job.offset ==>
          Lookup(t.parts[job.p].outcomes, (l, x)) == Lookup(s.parts[job.p].outcomes, (l, x)))
  }

  /** The message worked on is covered afterwards as it was before. */
  ghost predicate KeepsCover(s: State, t: State, job: Job)
    requires job.p < |s.parts| && job.p < |t.parts|
  {
    forall x ::
      && ((job.offset, x) in s.parts[job.p].outcomes ==> (job.offset, x) in t.parts[job.p].outcomes)
      && (job.Owes(x) ==>
            || (job.offset, x) in t.parts[job.p].outcomes
            || (Jobs(t) != [] && Jobs(t)[0].Owes(x))
            || (Jobs(t) == [] && t.parts[job.p].position <= job.offset))
  }

  lemma {:induction false} JobStepCovers(s: State, t: State, job: Job, p: nat, o: nat, x: Name)
    requires JobStep(s, t, job) && KeepsCover(s, t, job) && p < |s.parts| && Covered(s, p, o, x)
    ensures Covered(t, p, o, x)
  {
    if p == job.p && o == job.offset {
      assert Jobs(s)[0].On(p, o);
      assert Jobs(t) != [] ==> Jobs(t)[0].On(p, o);
    } else if p == job.p {
      assert Lookup(t.parts[p].outcomes, (o, x)) == Lookup(s.parts[p].outcomes, (o, x));
    }
  }

  /** A key whose last message is not the one worked on. */
  lemma {:induction false} OtherMessage(cfg: Worker.Config, s: State, t: State, job: Job, k: Key, x: Name)
    requires Wf(cfg, s) && Wf(cfg, t) && JobStep(s, t, job) && TargetOk(cfg, s, k, x)
    requires cfg.route(k) != job.p || LastOf(cfg, s, k) != job.offset
    requires LastOf(cfg, s, k) < job.offset || cfg.route(k) != job.p ==>
               Lookup(s.targets, x).Some? == Lookup(t.targets, x).Some?
               && (x in s.targets ==> Lookup(t.targets[x], k) == Lookup(s.targets[x], k))
    ensures TargetOk(cfg, t, k, x)
  {
    var p, last := cfg.route(k), LastOf(cfg, s, k);
    assert LastOf(cfg, t, k) == last;
    if last >= 0 {
      var l: nat := last;
      assert forall j :: 0 <= j < |Jobs(t)| ==> !Jobs(t)[j].On(p, l);
      assert forall j :: 0 <= j < |Jobs(s)| ==> !Jobs(s)[j].On(p, l);
      if p == job.p {
        assert Lookup(t.parts[p].outcomes, (l, x)) == Lookup(s.parts[p].outcomes, (l, x));
      }
    }
  }

  /** A key whose last message is the one worked on. */
  lemma {:induction false} LastMessage(cfg: Worker.Config, s: State, t: State, job: Job, k: Key, x: Name)
    requires Wf(cfg, s) && Wf(cfg, t) && JobStep(s, t, job) && TargetOk(cfg, s, k, x)
    requires cfg.route(k) == job.p && LastOf(cfg, s, k) == job.offset
    requires k !in s.unpublished && s.parts[job.p].log[job.offset].op.Put? ==> FreshJobs(t, job.p, job.offset, k)
    requires k !in s.unpublished && Done(t, job.p, job.offset, x) ==>
               || Agree(t, k, x)
               || (Done(s, job.p, job.offset, x) && (Agree(s, k, x) ==> Agree(t, k, x)))
    ensures TargetOk(cfg, t, k, x)
  {
    assert LastOf(cfg, t, k) == job.offset;
    assert Reached(s, job.p, job.offset) by {
      assert Jobs(s)[0].On(job.p, job.offset);
    }
  }

  lemma {:induction false} JobStepWf(cfg: Worker.Config, s: State, t: State, job: Job)
    requires Wf(cfg, s) && JobStep(s, t, job) && Exclusive(t)
    requires t.parts[job.p].position <= |t.parts[job.p].log| && OutcomesOk(t.parts[job.p])
    requires Jobs(t) != [] ==> JobOk(t, Jobs(t)[0])
    ensures Wf(cfg, t)
  {
    forall q | 0 <= q < cfg.count
      ensures t.parts[q].position <= |t.parts[q].log| == |t.parts[q].dests| && OutcomesOk(t.parts[q])
    {
      assert q != job.p ==> t.parts[q].outcomes == s.parts[q].outcomes;
    }
  }

  /** A step of the job that calls no backend. */
  ghost predicate QuietStep(s: State, t: State, job: Job) {
    && JobStep(s, t, job) && KeepsCover(s, t, job)
    && t.targets == s.targets
    && (Jobs(t) != [] ==> Jobs(t)[0].phase.Begin?)
    && forall x :: Done(t, job.p, job.offset, x) ==> Done(s, job.p, job.offset, x)
  }

  lemma {:induction false} QuietKey(cfg: Worker.Config, s: State, t: State, job: Job, k: Key, x: Name)
    requires Wf(cfg, s) && Wf(cfg, t) && QuietStep(s, t, job) && TargetOk(cfg, s, k, x)
    ensures TargetOk(cfg, t, k, x)
  {
    if cfg.route(k) == job.p && LastOf(cfg, s, k) == job.offset {
      LastMessage(cfg, s, t, job, k, x);
    } else {
      OtherMessage(cfg, s, t, job, k, x);
    }
  }

  /** A step of the job that calls the backend of its present target. */
  ghost predicate WorkStep(cfg: Worker.Config, s: State, t: State, job: Job, call: Worker.Call)
    requires job.p < |s.parts| && job.offset < |s.parts[job.p].log|
    requires job.i < |job.todo| && job.todo[job.i] in s.targets
  {
    var (progress, targets) := Work(cfg, s, job, call);
    var x0 := job.todo[job.i];
    && JobStep(s, t, job) && KeepsCover(s, t, job)
    && t.targets == targets && Jobs(t) == [Turn(job, progress)]
    && (forall x :: x != x0 && Done(t, job.p, job.offset, x) ==> Done(s, job.p, job.offset, x))
    && (Done(t, job.p, job.offset, x0) ==> progress.Returned?)
  }

  lemma {:induction false} WorkKey(cfg: Worker.Config, s: State, t: State, job: Job, call: Worker.Call, k: Key, x: Name)
    requires Wf(cfg, s) && Wf(cfg, t) && TargetOk(cfg, s, k, x)
    requires job.p < |s.parts| && job.offset < |s.parts[job.p].log|
    requires job.i < |job.todo| && job.todo[job.i] in s.targets && WorkStep(cfg, s, t, job, call)
    ensures TargetOk(cfg, t, k, x)
  {
    var m, x0 := s.parts[job.p].log[job.offset], job.todo[job.i];
    if cfg.route(k) == job.p && LastOf(cfg, s, k) == job.offset {
      if k !in s.unpublished {
        assert Jobs(s)[0].On(job.p, job.offset);
        Worker.ReplicateLast(cfg, m, job.phase, s.source, s.targets[x0], call);
      }
      LastMessage(cfg, s, t, job, k, x);
    } else {
      if !Worker.Moves(m, k) {
        Worker.ReplicateFrame(cfg, m, job.phase, s.source, s.targets[x0], call, k);
      }
      OtherMessage(cfg, s, t, job, k, x);
    }
  }

  // ---------------------------------------------------------------- the steps of handler and task

  lemma {:induction false} RecordIs(part: Partition, o: nat, x: Name, outcome: Option<Outcome>, l: nat, y: Name)
    ensures Lookup(Record(part, o, x, outcome).outcomes, (l, y)) ==
            if outcome.Some? && (l, y) == (o, x) then outcome else Lookup(part.outcomes, (l, y))
  {
  }

  lemma {:induction false} RecordAllIs(part: Partition, o: nat, names: seq<Name>, outcome: Outcome, l: nat, y: Name)
    ensures Lookup(RecordAll(part, o, names, outcome).outcomes, (l, y)) ==
            if l == o && y in names then Some(outcome) else Lookup(part.outcomes, (l, y))
  {
  }

  lemma {:induction false} RecordOk(part: Partition, o: nat, x: Name, outcome: Option<Outcome>)
    requires OutcomesOk(part) && o < |part.dests| && x in part.dests[o]
    ensures OutcomesOk(Record(part, o, x, outcome))
  {
  }

  lemma {:induction false} RecordAllOk(part: Partition, o: nat, names: seq<Name>, outcome: Outcome)
    requires OutcomesOk(part) && o < |part.dests| && forall x :: x in names ==> x in part.dests[o]
    ensures OutcomesOk(RecordAll(part, o, names, outcome))
  {
  }

  lemma {:induction false} TurnOwes(job: Job, progress: Worker.Progress, x: Name)
    requires job.i < |job.todo|
    ensures var x0 := job.todo[job.i];
            && job.Owes(x0)
            && (x != x0 ==> Turn(job, progress).Owes(x) == job.Owes(x))
            && (Settles(progress).None? ==> Turn(job, progress).Owes(x0))
            && NextTarget(job).Owes(x) == (x in job.todo[job.i + 1..] || x in job.left)
  {
    assert job.todo[job.i..] == [job.todo[job.i]] + job.todo[job.i + 1..];
  }

  /** One call, by whoever has the job. */
  lemma {:induction false} CallStep(cfg: Worker.Config, s: State, t: State, job: Job, call: Worker.Call)
    requires Wf(cfg, s) && Jobs(s) == [job] && JobOk(s, job)
    requires job.i < |job.todo| && job.todo[job.i] in s.targets
    requires var (progress, targets) := Work(cfg, s, job, call);
             && t.source == s.source && t.unpublished == s.unpublished && t.targets == targets
             && t.parts == s.parts[job.p := Record(s.parts[job.p], job.offset, job.todo[job.i], Settles(progress))]
             && Jobs(t) == [Turn(job, progress)]
    ensures WorkStep(cfg, s, t, job, call)
  {
    var progress := Work(cfg, s, job, call).0;
    var x0, part := job.todo[job.i], s.parts[job.p];
    forall l: nat, x ensures Lookup(t.parts[job.p].outcomes, (l, x)) ==
                             if Settles(progress).Some? && (l, x) == (job.offset, x0) then Settles(progress)
                             else Lookup(part.outcomes, (l, x)) {
      RecordIs(part, job.offset, x0, Settles(progress), l, x);
    }
    forall x ensures x != x0 ==> Turn(job, progress).Owes(x) == job.Owes(x)
             ensures Settles(progress).None? ==> Turn(job, progress).Owes(x0) {
      TurnOwes(job, progress, x);
    }
    CallDone(s, t, job, progress);
  }

  lemma {:induction false} CallDone(s: State, t: State, job: Job, progress: Worker.Progress)
    requires job.i < |job.todo| && job.p < |s.parts| && job.p < |t.parts|
    requires Jobs(s) == [job] && Jobs(t) == [Turn(job, progress)]
    requires var x0 := job.todo[job.i];
             && (forall l: nat, x :: Lookup(t.parts[job.p].outcomes, (l, x)) ==
                   if Settles(progress).Some? && (l, x) == (job.offset, x0) then Settles(progress)
                   else Lookup(s.parts[job.p].outcomes, (l, x)))
             && (forall x :: x != x0 ==> Turn(job, progress).Owes(x) == job.Owes(x))
             && (Settles(progress).None? ==> Turn(job, progress).Owes(x0))
    ensures forall x :: x != job.todo[job.i] && Done(t, job.p, job.offset, x) ==> Done(s, job.p, job.offset, x)
    ensures Done(t, job.p, job.offset, job.todo[job.i]) ==> progress.Returned?
    ensures KeepsCover(s, t, job)
  {
    var o, x0 := job.offset, job.todo[job.i];
    assert Jobs(t)[0].On(job.p, o) && Jobs(s)[0].On(job.p, o);
    forall x
      ensures (o, x) in s.parts[job.p].outcomes ==> (o, x) in t.parts[job.p].outcomes
      ensures job.Owes(x) ==> (o, x) in t.parts[job.p].outcomes || Jobs(t)[0].Owes(x)
    {
      assert Lookup(t.parts[job.p].outcomes, (o, x)) ==
             if Settles(progress).Some? && (o, x) == (o, x0) then Settles(progress)
             else Lookup(s.parts[job.p].outcomes, (o, x));
    }
  }

  lemma {:induction false} TurnOk(s: State, t: State, job: Job, progress: Worker.Progress)
    requires JobOk(s, job) && job.i < |job.todo| && |t.parts| == |s.parts|
    requires t.parts[job.p].log == s.parts[job.p].log && t.parts[job.p].dests == s.parts[job.p].dests
    requires t.parts[job.p].position == s.parts[job.p].position
    ensures JobOk(t, Turn(job, progress)) && JobOk(t, NextTarget(job))
  {
  }

  lemma {:induction false} HandleCall(cfg: Worker.Config, s: State, call: Worker.Call)
    requires Wf(cfg, s) && Enabled(cfg, s, Handle(call))
    requires s.handling.value.todo[s.handling.value.i] in s.targets
    ensures Wf(cfg, Apply(cfg, s, Handle(call)))
    ensures JobOk(s, s.handling.value) && WorkStep(cfg, s, Apply(cfg, s, Handle(call)), s.handling.value, call)
  {
    var t, job := Apply(cfg, s, Handle(call)), s.handling.value;
    OneJob(s);
    assert JobOk(s, Jobs(s)[0]);
    OneJob(t);
    CallStep(cfg, s, t, job, call);
    var progress := Work(cfg, s, job, call).0;
    TurnOk(s, t, job, progress);
    RecordOk(s.parts[job.p], job.offset, job.todo[job.i], Settles(progress));
    JobStepWf(cfg, s, t, job);
  }

  lemma {:induction false} RetryCall(cfg: Worker.Config, s: State, n: nat, call: Worker.Call)
    requires Wf(cfg, s) && Enabled(cfg, s, Retry(n, call))
    ensures Wf(cfg, Apply(cfg, s, Retry(n, call)))
    ensures JobOk(s, s.tasks[n]) && WorkStep(cfg, s, Apply(cfg, s, Retry(n, call)), s.tasks[n], call)
  {
    var t, job := Apply(cfg, s, Retry(n, call)), s.tasks[n];
    OneJob(s);
    OneTask(s.tasks, n);
    assert JobOk(s, Jobs(s)[0]);
    OneJob(t);
    CallStep(cfg, s, t, job, call);
    var progress := Work(cfg, s, job, call).0;
    TurnOk(s, t, job, progress);
    RecordOk(s.parts[job.p], job.offset, job.todo[job.i], Settles(progress));
    JobStepWf(cfg, s, t, job);
  }

  /** A target the pool does not know. */
  lemma {:induction false} HandleUnknown(cfg: Worker.Config, s: State, call: Worker.Call)
    requires Wf(cfg, s) && Enabled(cfg, s, Handle(call))
    requires s.handling.value.todo[s.handling.value.i] !in s.targets
    ensures Wf(cfg, Apply(cfg, s, Handle(call)))
    ensures QuietStep(s, Apply(cfg, s, Handle(call)), s.handling.value)
  {
    var t, job := Apply(cfg, s, Handle(call)), s.handling.value;
    OneJob(s);
    assert JobOk(s, Jobs(s)[0]);
    var x0, part := job.todo[job.i], s.parts[job.p];
    OneJob(t);
    assert Jobs(t)[0].On(job.p, job.offset) && Jobs(s)[0].On(job.p, job.offset);
    forall l: nat, x ensures Lookup(t.parts[job.p].outcomes, (l, x)) ==
                             if (l, x) == (job.offset, x0) then Some(SkippedPoison) else Lookup(part.outcomes, (l, x)) {
      RecordIs(part, job.offset, x0, Some(SkippedPoison), l, x);
    }
    forall x ensures x != x0 ==> NextTarget(job).Owes(x) == job.Owes(x) {
      TurnOwes(job, Worker.Returned, x);
    }
    UnknownDone(s, t, job);
    TurnOk(s, t, job, Worker.Returned);
    RecordOk(part, job.offset, x0, Some(SkippedPoison));
    JobStepWf(cfg, s, t, job);
  }

  lemma {:induction false} UnknownDone(s: State, t: State, job: Job)
    requires job.i < |job.todo| && job.p < |s.parts| && job.p < |t.parts|
    requires Jobs(s) == [job] && Jobs(t) == [NextTarget(job)]
    requires var x0 := job.todo[job.i];
             && (forall l: nat, x :: Lookup(t.parts[job.p].outcomes, (l, x)) ==
                   if (l, x) == (job.offset, x0) then Some(SkippedPoison)
                   else Lookup(s.parts[job.p].outcomes, (l, x)))
             && (forall x :: x != x0 ==> NextTarget(job).Owes(x) == job.Owes(x))
    ensures forall x :: Done(t, job.p, job.offset, x) ==> Done(s, job.p, job.offset, x)
    ensures KeepsCover(s, t, job)
  {
    var o, x0 := job.offset, job.todo[job.i];
    assert Jobs(t)[0].On(job.p, o) && Jobs(s)[0].On(job.p, o);
    forall x
      ensures (o, x) in s.parts[job.p].outcomes ==> (o, x) in t.parts[job.p].outcomes
      ensures job.Owes(x) ==> (o, x) in t.parts[job.p].outcomes || Jobs(t)[0].Owes(x)
    {
      assert Lookup(t.parts[job.p].outcomes, (o, x)) ==
             if (o, x) == (o, x0) then Some(SkippedPoison) else Lookup(s.parts[job.p].outcomes, (o, x));
    }
  }

  lemma {:induction false} PoisonStep(cfg: Worker.Config, s: State)
    requires Wf(cfg, s) && Enabled(cfg, s, Poison)
    ensures Wf(cfg, Apply(cfg, s, Poison))
    ensures QuietStep(s, Apply(cfg, s, Poison), s.handling.value)
  {
    var t, job := Apply(cfg, s, Poison), s.handling.value;
    OneJob(s);
    assert JobOk(s, Jobs(s)[0]);
    var part := s.parts[job.p];
    NoJob(t);
    assert job.todo[0..] == job.todo;
    forall l: nat, x ensures Lookup(t.parts[job.p].outcomes, (l, x)) ==
                             if l == job.offset && x in job.todo then Some(SkippedPoison)
                             else Lookup(part.outcomes, (l, x)) {
      RecordAllIs(part, job.offset, job.todo, SkippedPoison, l, x);
    }
    DropDone(s, t, job, SkippedPoison);
    RecordAllOk(part, job.offset, job.todo, SkippedPoison);
    JobStepWf(cfg, s, t, job);
  }

  /** The job ends with all it owes recorded. */
  lemma {:induction false} DropDone(s: State, t: State, job: Job, outcome: Outcome)
    requires outcome != Success && job.p < |s.parts| && job.p < |t.parts|
    requires Jobs(s) == [job] && Jobs(t) == [] && (forall x :: job.Owes(x) <==> x in job.todo)
    requires forall l: nat, x :: Lookup(t.parts[job.p].outcomes, (l, x)) ==
               if l == job.offset && x in job.todo then Some(outcome) else Lookup(s.parts[job.p].outcomes, (l, x))
    ensures forall x :: Done(t, job.p, job.offset, x) ==> Done(s, job.p, job.offset, x)
    ensures KeepsCover(s, t, job)
  {
    var o := job.offset;
    forall x
      ensures (o, x) in s.parts[job.p].outcomes ==> (o, x) in t.parts[job.p].outcomes
      ensures job.Owes(x) ==> (o, x) in t.parts[job.p].outcomes
    {
      assert Lookup(t.parts[job.p].outcomes, (o, x)) ==
             if o == job.offset && x in job.todo then Some(outcome) else Lookup(s.parts[job.p].outcomes, (o, x));
    }
  }

  /** The job is replaced by one on the same message that owes at least as much. */
  lemma {:induction false} ReplacedStep(cfg: Worker.Config, s: State, t: State, job: Job, next: Job)
    requires Wf(cfg, s) && Jobs(s) == [job] && JobOk(s, job) && Jobs(t) == [next] && Exclusive(t)
    requires t.source == s.source && t.unpublished == s.unpublished && t.targets == s.targets
    requires |t.parts| == |s.parts| && next.p == job.p && next.offset == job.offset && next.phase.Begin? && next.i == 0
    requires forall x :: job.Owes(x) ==> next.Owes(x)
    requires forall x :: next.Owes(x) ==> x in s.parts[job.p].dests[job.offset]
    requires forall q :: 0 <= q < |s.parts| ==>
               t.parts[q] == s.parts[q].(position := t.parts[q].position, paused := t.parts[q].paused)
    requires forall q :: 0 <= q < |s.parts| && q != job.p ==> t.parts[q].position == s.parts[q].position
    requires job.offset <= t.parts[job.p].position <= job.offset + 1
    ensures Wf(cfg, t) && QuietStep(s, t, job)
  {
    assert Jobs(t)[0].On(job.p, job.offset) && Jobs(s)[0].On(job.p, job.offset);
    assert next.todo[0..] == next.todo;
    forall x ensures x in next.todo || x in next.left ==> next.Owes(x) {
    }
    JobStepWf(cfg, s, t, job);
  }

  /** The job owes nothing and ends. */
  lemma {:induction false} EndedStep(cfg: Worker.Config, s: State, t: State, job: Job)
    requires Wf(cfg, s) && Jobs(s) == [job] && JobOk(s, job) && Jobs(t) == [] && Exclusive(t)
    requires t.source == s.source && t.unpublished == s.unpublished && t.targets == s.targets
    requires |t.parts| == |s.parts| && forall x :: !job.Owes(x)
    requires forall q :: 0 <= q < |s.parts| ==>
               t.parts[q] == s.parts[q].(position := t.parts[q].position, paused := t.parts[q].paused)
    requires forall q :: 0 <= q < |s.parts| && q != job.p ==> t.parts[q].position == s.parts[q].position
    requires job.offset <= t.parts[job.p].position <= job.offset + 1
    ensures Wf(cfg, t) && QuietStep(s, t, job)
  {
    JobStepWf(cfg, s, t, job);
  }

  lemma {:induction false} EndHandlingStep(cfg: Worker.Config, s: State)
    requires Wf(cfg, s) && Enabled(cfg, s, EndHandling)
    ensures Wf(cfg, Apply(cfg, s, EndHandling))
    ensures QuietStep(s, Apply(cfg, s, EndHandling), s.handling.value)
  {
    var t, job := Apply(cfg, s, EndHandling), s.handling.value;
    OneJob(s);
    assert JobOk(s, Jobs(s)[0]);
    assert job.todo[job.i..] == [];
    if job.left == [] {
      NoJob(t);
      EndedStep(cfg, s, t, job);
    } else {
      var next := Job(job.p, job.offset, 1, job.left, 0, [], Worker.Begin);
      assert t.tasks == [next];
      assert next.todo[0..] == next.todo;
      OneJob(t);
      ReplacedStep(cfg, s, t, job, next);
    }
  }

  lemma {:induction false} LeaveIs(s: State, n: nat, o: nat, resume: Resumption)
    requires Exclusive(s) && n < |s.tasks| && s.tasks[n].p < |s.parts|
    ensures var t, job := Leave(s, n, o, resume), s.tasks[n];
            && t.source == s.source && t.unpublished == s.unpublished && t.targets == s.targets
            && t.handling == s.handling && Exclusive(t) && |t.parts| == |s.parts|
            && t.tasks == (if resume.Fine? then []
                           else [job.(attempt := job.attempt + 1, i := 0, left := [], phase := Worker.Begin)])
            && (forall q :: 0 <= q < |s.parts| ==>
                  t.parts[q] == s.parts[q].(position := t.parts[q].position, paused := t.parts[q].paused))
            && (forall q :: 0 <= q < |s.parts| && q != job.p ==> t.parts[q].position == s.parts[q].position)
            && t.parts[job.p].position == if resume.SeekRaises? then s.parts[job.p].position else o
  {
    OneTask(s.tasks, n);
  }

  lemma {:induction false} EndRoundStep(cfg: Worker.Config, s: State, n: nat, resume: Resumption)
    requires Wf(cfg, s) && Enabled(cfg, s, EndRound(n, resume))
    ensures Wf(cfg, Apply(cfg, s, EndRound(n, resume)))
    ensures QuietStep(s, Apply(cfg, s, EndRound(n, resume)), s.tasks[n])
  {
    var t, job := Apply(cfg, s, EndRound(n, resume)), s.tasks[n];
    OneJob(s);
    OneTask(s.tasks, n);
    assert JobOk(s, Jobs(s)[0]);
    assert job.todo[job.i..] == [];
    if job.left != [] {
      var next := Job(job.p, job.offset, job.attempt + 1, job.left, 0, [], Worker.Begin);
      assert t.tasks == [next];
      assert next.todo[0..] == next.todo;
      OneJob(t);
      ReplacedStep(cfg, s, t, job, next);
    } else {
      LeaveIs(s, n, job.offset, resume);
      OneJob(t);
      if resume.Fine? {
        EndedStep(cfg, s, t, job);
      } else {
        var next := job.(attempt := job.attempt + 1, i := 0, left := [], phase := Worker.Begin);
        assert next.todo[0..] == next.todo;
        ReplacedStep(cfg, s, t, job, next);
      }
    }
  }

  /** Leaving with the outcomes of the message changed. */
  lemma {:induction false} NotedLeave(s: State, n: nat, part: Partition, o: nat, resume: Resumption)
    requires Exclusive(s) && n < |s.tasks| && JobOk(s, s.tasks[n])
    requires part == s.parts[s.tasks[n].p].(outcomes := part.outcomes)
    requires s.tasks[n].offset <= o <= s.tasks[n].offset + 1
    requires forall l: nat, x :: l != s.tasks[n].offset ==>
               Lookup(part.outcomes, (l, x)) == Lookup(s.parts[s.tasks[n].p].outcomes, (l, x))
    ensures var job, t := s.tasks[n], Leave(SetPart(s, s.tasks[n].p, part), n, o, resume);
            && JobStep(s, t, job) && Exclusive(t) && t.targets == s.targets
            && t.parts[job.p].outcomes == part.outcomes
            && job.offset <= t.parts[job.p].position <= job.offset + 1
            && (if resume.Fine? then Jobs(t) == []
                else Jobs(t) == [job.(attempt := job.attempt + 1, i := 0, left := [], phase := Worker.Begin)])
  {
    var job, noted := s.tasks[n], SetPart(s, s.tasks[n].p, part);
    OneJob(s);
    OneTask(s.tasks, n);
    assert Exclusive(noted);
    LeaveIs(noted, n, o, resume);
    OneJob(Leave(noted, n, o, resume));
  }

  /** The outcomes of a message that was given up. */
  ghost predicate GivenUp(s: State, t: State, job: Job)
    requires job.p < |s.parts| && job.p < |t.parts|
  {
    forall l: nat, x :: Lookup(t.parts[job.p].outcomes, (l, x)) ==
      if l == job.offset && x in job.todo then Some(SkippedMaxRetries) else Lookup(s.parts[job.p].outcomes, (l, x))
  }

  lemma {:induction false} GiveUpIs(s: State, n: nat, resume: Resumption)
    requires Exclusive(s) && n < |s.tasks| && JobOk(s, s.tasks[n]) && OutcomesOk(s.parts[s.tasks[n].p])
    ensures var job := s.tasks[n];
            var part := RecordAll(s.parts[job.p], job.offset, job.todo, SkippedMaxRetries);
            var t := Leave(SetPart(s, job.p, part), n, job.offset + 1, resume);
            && JobStep(s, t, job) && GivenUp(s, t, job) && Exclusive(t) && t.targets == s.targets
            && t.parts[job.p].position <= job.offset + 1 && OutcomesOk(t.parts[job.p])
            && job.offset <= t.parts[job.p].position
            && (if resume.Fine? then Jobs(t) == []
                else Jobs(t) == [job.(attempt := job.attempt + 1, i := 0, left := [], phase := Worker.Begin)])
  {
    var job := s.tasks[n];
    var part := s.parts[job.p];
    forall l: nat, x ensures Lookup(RecordAll(part, job.offset, job.todo, SkippedMaxRetries).outcomes, (l, x)) ==
                             if l == job.offset && x in job.todo then Some(SkippedMaxRetries)
                             else Lookup(part.outcomes, (l, x)) {
      RecordAllIs(part, job.offset, job.todo, SkippedMaxRetries, l, x);
    }
    RecordAllOk(part, job.offset, job.todo, SkippedMaxRetries);
    NotedLeave(s, n, RecordAll(part, job.offset, job.todo, SkippedMaxRetries), job.offset + 1, resume);
  }

  lemma {:induction false} GivenUpStep(cfg: Worker.Config, s: State, t: State, job: Job)
    requires Wf(cfg, s) && Jobs(s) == [job] && JobOk(s, job) && job.i == 0 && job.left == []
    requires JobStep(s, t, job) && GivenUp(s, t, job) && Exclusive(t) && t.targets == s.targets
    requires job.offset <= t.parts[job.p].position <= job.offset + 1 && OutcomesOk(t.parts[job.p])
    requires Jobs(t) == []
             || Jobs(t) == [job.(attempt := job.attempt + 1, i := 0, left := [], phase := Worker.Begin)]
    ensures Wf(cfg, t) && QuietStep(s, t, job)
  {
    assert job.todo[0..] == job.todo;
    if Jobs(t) == [] {
      DropDone(s, t, job, SkippedMaxRetries);
    } else {
      AgainDone(s, t, job, SkippedMaxRetries);
    }
    JobStepWf(cfg, s, t, job);
  }

  lemma {:induction false} GiveUpLeaves(cfg: Worker.Config, s: State, t: State, n: nat, resume: Resumption)
    requires Wf(cfg, s) && n < |s.tasks| && Jobs(s) == [s.tasks[n]] && JobOk(s, s.tasks[n])
    requires s.tasks[n].i == 0 && s.tasks[n].left == []
    requires var job := s.tasks[n];
             t == Leave(SetPart(s, job.p, RecordAll(s.parts[job.p], job.offset, job.todo, SkippedMaxRetries)),
                        n, job.offset + 1, resume)
    ensures Wf(cfg, t) && QuietStep(s, t, s.tasks[n])
  {
    GiveUpIs(s, n, resume);
    GivenUpStep(cfg, s, t, s.tasks[n]);
  }

  lemma {:induction false} GiveUpStep(cfg: Worker.Config, s: State, n: nat, resume: Resumption)
    requires Wf(cfg, s) && Enabled(cfg, s, GiveUp(n, resume))
    ensures Wf(cfg, Apply(cfg, s, GiveUp(n, resume)))
    ensures QuietStep(s, Apply(cfg, s, GiveUp(n, resume)), s.tasks[n])
  {
    OneJob(s);
    OneTask(s.tasks, n);
    assert JobOk(s, Jobs(s)[0]);
    GiveUpLeaves(cfg, s, Apply(cfg, s, GiveUp(n, resume)), n, resume);
  }

  lemma {:induction false} AgainDone(s: State, t: State, job: Job, outcome: Outcome)
    requires outcome != Success && job.p < |s.parts| && job.p < |t.parts|
    requires Jobs(s) == [job] && (forall x :: job.Owes(x) <==> x in job.todo)
    requires |Jobs(t)| == 1 && Jobs(t)[0].On(job.p, job.offset)
    requires forall l: nat, x :: Lookup(t.parts[job.p].outcomes, (l, x)) ==
               if l == job.offset && x in job.todo then Some(outcome) else Lookup(s.parts[job.p].outcomes, (l, x))
    ensures forall x :: Done(t, job.p, job.offset, x) ==> Done(s, job.p, job.offset, x)
    ensures KeepsCover(s, t, job)
  {
    var o := job.offset;
    forall x
      ensures (o, x) in s.parts[job.p].outcomes ==> (o, x) in t.parts[job.p].outcomes
      ensures job.Owes(x) ==> (o, x) in t.parts[job.p].outcomes
    {
      assert Lookup(t.parts[job.p].outcomes, (o, x)) ==
             if o == job.offset && x in job.todo then Some(outcome) else Lookup(s.parts[job.p].outcomes, (o, x));
    }
  }

  // ---------------------------------------------------------------- the other steps

  /** Delivering starts a job that owes the message to all its targets. */
  lemma {:induction false} DeliverStep(cfg: Worker.Config, s: State, p: nat)
    requires Wf(cfg, s) && Enabled(cfg, s, Deliver(p))
    ensures var t, o := Apply(cfg, s, Deliver(p)), s.parts[p].position;
            && Jobs(s) == [] && |Jobs(t)| == 1 && Jobs(t)[0].On(p, o) && Jobs(t)[0].phase.Begin?
            && o < |s.parts[p].dests| && (forall x :: x in s.parts[p].dests[o] ==> Jobs(t)[0].Owes(x))
            && Wf(cfg, t)
  {
    var t, o := Apply(cfg, s, Deliver(p)), s.parts[p].position;
    OneJob(s);
    OneJob(t);
    var job := t.handling.value;
    assert job.todo[0..] == job.todo;
    assert JobOk(t, job);
    assert forall q :: 0 <= q < cfg.count ==> OutcomesOk(s.parts[q]);
  }

  lemma {:induction false} DeliverKey(cfg: Worker.Config, s: State, p: nat, k: Key, x: Name)
    requires Wf(cfg, s) && Enabled(cfg, s, Deliver(p)) && TargetOk(cfg, s, k, x)
    ensures Wf(cfg, Apply(cfg, s, Deliver(p)))
    ensures TargetOk(cfg, Apply(cfg, s, Deliver(p)), k, x)
  {
    var t, o := Apply(cfg, s, Deliver(p)), s.parts[p].position;
    DeliverStep(cfg, s, p);
    var q, last := cfg.route(k), LastOf(cfg, s, k);
    if q == p && last == o {
      assert Jobs(t)[0].On(q, last) && OutcomesOk(s.parts[p]);
    } else if last >= 0 {
      assert forall j :: 0 <= j < |Jobs(t)| ==> !Jobs(t)[j].On(q, last);
    }
  }

  lemma {:induction false} DeliverCovers(cfg: Worker.Config, s: State, p: nat, q: nat, o: nat, x: Name)
    requires Wf(cfg, s) && Enabled(cfg, s, Deliver(p)) && q < cfg.count && Covered(s, q, o, x)
    ensures q < |Apply(cfg, s, Deliver(p)).parts| && Covered(Apply(cfg, s, Deliver(p)), q, o, x)
  {
    var t := Apply(cfg, s, Deliver(p));
    DeliverStep(cfg, s, p);
    if Reached(t, q, o) && !(q == p && o == s.parts[p].position) {
      assert forall j :: 0 <= j < |Jobs(t)| ==> !Jobs(t)[j].On(q, o);
      assert Reached(s, q, o);
    }
  }

  lemma {:induction false} RestartStep(cfg: Worker.Config, s: State, committed: seq<nat>)
    requires Wf(cfg, s) && Enabled(cfg, s, Restart(committed))
    ensures Wf(cfg, Restarted(s, committed))
    ensures forall p: nat, o: nat :: p < cfg.count && Reached(Restarted(s, committed), p, o) ==>
              Reached(s, p, o) && forall j :: 0 <= j < |Jobs(s)| ==> !Jobs(s)[j].On(p, o)
  {
    var t := Restarted(s, committed);
    NoJob(t);
    forall p | 0 <= p < cfg.count
      ensures t.parts[p].position <= |t.parts[p].log| == |t.parts[p].dests| && OutcomesOk(t.parts[p])
    {
      assert OutcomesOk(s.parts[p]);
    }
  }

  lemma {:induction false} RestartKey(cfg: Worker.Config, s: State, committed: seq<nat>, k: Key, x: Name)
    requires Wf(cfg, s) && Enabled(cfg, s, Restart(committed)) && TargetOk(cfg, s, k, x)
    ensures Wf(cfg, Restarted(s, committed))
    ensures TargetOk(cfg, Restarted(s, committed), k, x)
  {
    var t := Restarted(s, committed);
    NoJob(t);
    RestartStep(cfg, s, committed);
    var p, last := cfg.route(k), LastOf(cfg, s, k);
    assert LastOf(cfg, t, k) == last;
    if last >= 0 {
      var l: nat := last;
      assert Reached(t, p, l) ==> Reached(s, p, l);
    }
  }

  lemma {:induction false} RestartCovers(cfg: Worker.Config, s: State, committed: seq<nat>, p: nat, o: nat, x: Name)
    requires Wf(cfg, s) && Enabled(cfg, s, Restart(committed)) && p < cfg.count && Covered(s, p, o, x)
    ensures p < |Restarted(s, committed).parts| && Covered(Restarted(s, committed), p, o, x)
  {
    RestartStep(cfg, s, committed);
  }

  lemma {:induction false} AppendJobs(s: State, t: State)
    requires t.handling == s.handling && t.tasks == s.tasks
    ensures Jobs(t) == Jobs(s)
  {
  }

  lemma {:induction false} AppendWf(cfg: Worker.Config, s: State, m: Worker.Message, to: seq<Name>)
    requires Wf(cfg, s)
    ensures Wf(cfg, Append(cfg, s, m, to))
  {
    var t, p := Append(cfg, s, m, to), cfg.route(m.key);
    AppendJobs(s, t);
    assert forall q :: 0 <= q < cfg.count ==> OutcomesOk(s.parts[q]);
    forall j | 0 <= j < |Jobs(t)| ensures JobOk(t, Jobs(t)[j]) {
      assert JobOk(s, Jobs(s)[j]);
    }
  }

  lemma {:induction false} AppendKey(cfg: Worker.Config, s: State, m: Worker.Message, to: seq<Name>, k: Key, x: Name)
    requires Wf(cfg, s) && TargetOk(cfg, s, k, x) && !Worker.Moves(m, k)
    ensures Wf(cfg, Append(cfg, s, m, to))
    ensures TargetOk(cfg, Append(cfg, s, m, to), k, x)
  {
    var t, p := Append(cfg, s, m, to), cfg.route(m.key);
    AppendWf(cfg, s, m, to);
    AppendJobs(s, t);
    Worker.LastAppend(s.parts[p].log, m, k);
    var last := LastOf(cfg, s, k);
    assert LastOf(cfg, t, k) == last;
    assert last >= 0 ==> t.parts[cfg.route(k)].log[last] == s.parts[cfg.route(k)].log[last];
  }

  lemma {:induction false} PublishKey(cfg: Worker.Config, s: State, k: Key, to: seq<Name>, x: Name)
    requires Wf(cfg, s) && TargetOk(cfg, s, k, x) && k in s.unpublished
    ensures Wf(cfg, Apply(cfg, s, Publish(k, to)))
    ensures TargetOk(cfg, Apply(cfg, s, Publish(k, to)), k, x)
  {
    var t, p := Apply(cfg, s, Publish(k, to)), cfg.route(k);
    var m := Worker.Message(k, s.unpublished[k]);
    AppendWf(cfg, s, m, to);
    ClientWf(cfg, Append(cfg, s, m, to), t);
    AppendJobs(s, t);
    Worker.LastAppend(s.parts[p].log, m, k);
    var o := |s.parts[p].log|;
    forall j | 0 <= j < |Jobs(t)| ensures !Jobs(t)[j].On(p, o) {
      assert JobOk(s, Jobs(s)[j]);
    }
  }

  lemma {:induction false} OtherPublished(cfg: Worker.Config, s: State, key: Key, to: seq<Name>, k: Key, x: Name)
    requires Wf(cfg, s) && TargetOk(cfg, s, k, x) && key in s.unpublished && key != k
    ensures Wf(cfg, Apply(cfg, s, Publish(key, to)))
    ensures TargetOk(cfg, Apply(cfg, s, Publish(key, to)), k, x)
  {
    var m := Worker.Message(key, s.unpublished[key]);
    AppendWf(cfg, s, m, to);
    AppendKey(cfg, s, m, to, k, x);
    ClientWf(cfg, Append(cfg, s, m, to), Apply(cfg, s, Publish(key, to)));
  }

  lemma {:induction false} AppendCovers(cfg: Worker.Config, s: State, m: Worker.Message, to: seq<Name>, p: nat, o: nat, x: Name)
    requires Wf(cfg, s) && p < cfg.count && Covered(s, p, o, x)
    ensures p < |Append(cfg, s, m, to).parts| && Covered(Append(cfg, s, m, to), p, o, x)
  {
    var t := Append(cfg, s, m, to);
    AppendJobs(s, t);
    if Reached(t, p, o) {
      assert Reached(s, p, o);
      assert forall j :: 0 <= j < |Jobs(s)| ==> JobOk(s, Jobs(s)[j]);
    }
  }

  lemma {:induction false} ClientWf(cfg: Worker.Config, s: State, t: State)
    requires Wf(cfg, s) && t == s.(source := t.source, unpublished := t.unpublished)
    ensures Wf(cfg, t) && Jobs(t) == Jobs(s)
  {
    AppendJobs(s, t);
    forall j | 0 <= j < |Jobs(t)| ensures JobOk(t, Jobs(t)[j]) {
      assert JobOk(s, Jobs(s)[j]);
    }
  }

  lemma {:induction false} PutKey(cfg: Worker.Config, s: State, key: Key, body: Bytes, announced: bool, k: Key, x: Name)
    requires Wf(cfg, s) && Enabled(cfg, s, ClientPut(key, body, announced)) && TargetOk(cfg, s, k, x)
    ensures Wf(cfg, Apply(cfg, s, ClientPut(key, body, announced)))
    ensures TargetOk(cfg, Apply(cfg, s, ClientPut(key, body, announced)), k, x)
  {
    ClientWf(cfg, s, Apply(cfg, s, ClientPut(key, body, announced)));
  }

  lemma {:induction false} DeleteKey(cfg: Worker.Config, s: State, key: Key, k: Key, x: Name)
    requires Wf(cfg, s) && Enabled(cfg, s, ClientDelete(key)) && TargetOk(cfg, s, k, x)
    ensures Wf(cfg, Apply(cfg, s, ClientDelete(key)))
    ensures TargetOk(cfg, Apply(cfg, s, ClientDelete(key)), k, x)
  {
    ClientWf(cfg, s, Apply(cfg, s, ClientDelete(key)));
  }

  // ---------------------------------------------------------------- every step keeps the invariant

  predicate AtWork(step: Step) {
    step.Poison? || step.Handle? || step.EndHandling? || step.Retry? || step.EndRound? || step.GiveUp?
  }

  function JobOf(s: State, step: Step): Job
    requires AtWork(step)
    requires step.Poison? || step.Handle? || step.EndHandling? ==> s.handling.Some?
    requires step.Retry? || step.EndRound? || step.GiveUp? ==> step.n < |s.tasks|
  {
    if step.Poison? || step.Handle? || step.EndHandling? then s.handling.value else s.tasks[step.n]
  }

  predicate Calls(s: State, step: Step)
    requires step.Handle? ==> s.handling.Some? && s.handling.value.i < |s.handling.value.todo|
  {
    step.Retry? || (step.Handle? && s.handling.value.todo[s.handling.value.i] in s.targets)
  }

  lemma {:induction false} QuietAtWork(cfg: Worker.Config, s: State, step: Step)
    requires Wf(cfg, s) && Enabled(cfg, s, step) && AtWork(step) && !Calls(s, step)
    ensures Wf(cfg, Apply(cfg, s, step)) && QuietStep(s, Apply(cfg, s, step), JobOf(s, step))
  {
    match step
    case Poison => PoisonStep(cfg, s);
    case Handle(call) => HandleUnknown(cfg, s, call);
    case EndHandling => EndHandlingStep(cfg, s);
    case EndRound(n, resume) => EndRoundStep(cfg, s, n, resume);
    case GiveUp(n, resume) => GiveUpStep(cfg, s, n, resume);
  }

  lemma {:induction false} CallAtWork(cfg: Worker.Config, s: State, step: Step)
    requires Wf(cfg, s) && Enabled(cfg, s, step) && AtWork(step) && Calls(s, step)
    ensures var job := JobOf(s, step);
            && Wf(cfg, Apply(cfg, s, step)) && JobOk(s, job)
            && job.i < |job.todo| && job.todo[job.i] in s.targets
            && WorkStep(cfg, s, Apply(cfg, s, step), job, step.call)
  {
    match step
    case Handle(call) => HandleCall(cfg, s, call);
    case Retry(n, call) => RetryCall(cfg, s, n, call);
  }

  lemma {:induction false} StepWf(cfg: Worker.Config, s: State, step: Step)
    requires Wf(cfg, s) && Enabled(cfg, s, step)
    ensures Wf(cfg, Apply(cfg, s, step))
  {
    match step
    case ClientPut(_, _, _) => ClientWf(cfg, s, Apply(cfg, s, step));
    case ClientDelete(_) => ClientWf(cfg, s, Apply(cfg, s, step));
    case Publish(k, to) =>
      var m := Worker.Message(k, s.unpublished[k]);
      AppendWf(cfg, s, m, to);
      ClientWf(cfg, Append(cfg, s, m, to), Apply(cfg, s, step));
    case PublishOther(k, to) => AppendWf(cfg, s, Worker.Message(k, Worker.Other), to);
    case Deliver(p) => DeliverStep(cfg, s, p);
    case Restart(committed) => RestartStep(cfg, s, committed);
    case _ =>
      if Calls(s, step) {
        CallAtWork(cfg, s, step);
      } else {
        QuietAtWork(cfg, s, step);
      }
  }

  lemma {:induction false} StepTarget(cfg: Worker.Config, s: State, step: Step, k: Key, x: Name)
    requires Wf(cfg, s) && Enabled(cfg, s, step) && TargetOk(cfg, s, k, x)
    ensures Wf(cfg, Apply(cfg, s, step))
    ensures TargetOk(cfg, Apply(cfg, s, step), k, x)
  {
    match step
    case ClientPut(key, body, announced) => PutKey(cfg, s, key, body, announced, k, x);
    case ClientDelete(key) => DeleteKey(cfg, s, key, k, x);
    case Publish(key, to) =>
      if key == k {
        PublishKey(cfg, s, k, to, x);
      } else {
        OtherPublished(cfg, s, key, to, k, x);
      }
    case PublishOther(key, to) => AppendKey(cfg, s, Worker.Message(key, Worker.Other), to, k, x);
    case Deliver(p) => DeliverKey(cfg, s, p, k, x);
    case Restart(committed) => RestartKey(cfg, s, committed, k, x);
    case _ => AtWorkTarget(cfg, s, step, k, x);
  }

  lemma {:induction false} AtWorkTarget(cfg: Worker.Config, s: State, step: Step, k: Key, x: Name)
    requires Wf(cfg, s) && Enabled(cfg, s, step) && AtWork(step) && TargetOk(cfg, s, k, x)
    ensures Wf(cfg, Apply(cfg, s, step))
    ensures TargetOk(cfg, Apply(cfg, s, step), k, x)
  {
    if Calls(s, step) {
      CallAtWork(cfg, s, step);
      WorkKey(cfg, s, Apply(cfg, s, step), JobOf(s, step), step.call, k, x);
    } else {
      QuietAtWork(cfg, s, step);
      QuietKey(cfg, s, Apply(cfg, s, step), JobOf(s, step), k, x);
    }
  }

  lemma {:induction false} StepCovers(cfg: Worker.Config, s: State, step: Step, p: nat, o: nat, x: Name)
    requires Wf(cfg, s) && Enabled(cfg, s, step) && p < cfg.count && Covered(s, p, o, x)
    ensures p < |Apply(cfg, s, step).parts| && Covered(Apply(cfg, s, step), p, o, x)
  {
    match step
    case ClientPut(_, _, _) => AppendJobs(s, Apply(cfg, s, step));
    case ClientDelete(_) => AppendJobs(s, Apply(cfg, s, step));
    case Publish(k, to) =>
      var m := Worker.Message(k, s.unpublished[k]);
      AppendCovers(cfg, s, m, to, p, o, x);
      AppendJobs(Append(cfg, s, m, to), Apply(cfg, s, step));
    case PublishOther(k, to) => AppendCovers(cfg, s, Worker.Message(k, Worker.Other), to, p, o, x);
    case Deliver(q) => DeliverCovers(cfg, s, q, p, o, x);
    case Restart(committed) => RestartCovers(cfg, s, committed, p, o, x);
    case _ => AtWorkCovers(cfg, s, step, p, o, x);
  }

  lemma {:induction false} AtWorkCovers(cfg: Worker.Config, s: State, step: Step, p: nat, o: nat, x: Name)
    requires Wf(cfg, s) && Enabled(cfg, s, step) && AtWork(step) && p < cfg.count && Covered(s, p, o, x)
    ensures p < |Apply(cfg, s, step).parts| && Covered(Apply(cfg, s, step), p, o, x)
  {
    if Calls(s, step) {
      CallAtWork(cfg, s, step);
    } else {
      QuietAtWork(cfg, s, step);
    }
    JobStepCovers(s, Apply(cfg, s, step), JobOf(s, step), p, o, x);
  }

  lemma {:induction false} NextInv(cfg: Worker.Config, s: State, t: State)
    requires Inv(cfg, s) && Next(cfg, s, t)
    ensures Inv(cfg, t)
  {
    var step :| Enabled(cfg, s, step) && t == Apply(cfg, s, step);
    StepWf(cfg, s, step);
    forall k, x ensures TargetOk(cfg, t, k, x) {
      assert TargetOk(cfg, s, k, x);
      StepTarget(cfg, s, step, k, x);
    }
    forall p: nat, o: nat, x | p < cfg.count ensures Covered(t, p, o, x) {
      assert Covered(s, p, o, x);
      StepCovers(cfg, s, step, p, o, x);
    }
  }

  ghost function Steps(cfg: Worker.Config): (State, State) -> bool {
    (s, t) => Next(cfg, s, t)
  }

  /** A run of `n` steps leads from an initial state to `s`. */
  ghost predicate Run(cfg: Worker.Config, s0: State, s: State, n: nat) {
    Init(cfg, s0) && Reaches(Steps(cfg), s0, s, n)
  }

  lemma {:induction false} InitInv(cfg: Worker.Config, s: State)
    requires Init(cfg, s)
    ensures Inv(cfg, s)
  {
    NoJob(s);
    assert forall p :: 0 <= p < cfg.count ==> OutcomesOk(s.parts[p]);
  }

  lemma {:induction false} RunInv(cfg: Worker.Config, s0: State, s: State, n: nat)
    requires Run(cfg, s0, s, n)
    ensures Inv(cfg, s)
  {
    InitInv(cfg, s0);
    forall a, b | Inv(cfg, a) && Steps(cfg)(a, b) ensures Inv(cfg, b) {
      NextInv(cfg, a, b);
    }
    ReachesKeeps(Steps(cfg), a => Inv(cfg, a), s0, s, n);
  }

  // ---------------------------------------------------------------- main results

  /** Convergence for several targets: after every run from any stores, a key with no unpublished
      write whose last message has been reached, is recorded as a success for target `x` and is not
      owed to `x` by handler or task has the same body, or the same absence, on `x` and on the source. */
  lemma {:induction false} BatchConvergence(cfg: Worker.Config, s0: State, s: State, n: nat, k: Key, x: Name)
    requires Run(cfg, s0, s, n)
    ensures Wf(cfg, s)
    ensures Settled(cfg, s, k, x) ==> Agree(s, k, x)
  {
    RunInv(cfg, s0, s, n);
    assert TargetOk(cfg, s, k, x);
  }

  /** Batch safety: after every run at most one task lives, exactly while every partition is paused,
      and then no handler runs; and a message below the position has an outcome for each of its
      targets, or is owed to it by the one job there is. */
  lemma {:induction false} BatchSafety(cfg: Worker.Config, s0: State, s: State, n: nat, p: nat)
    requires Run(cfg, s0, s, n) && p < cfg.count
    ensures |s.parts| == cfg.count && |Jobs(s)| <= 1
    ensures s.tasks != [] ==> s.handling.None?
    ensures s.parts[p].paused <==> s.tasks != []
    ensures forall o: nat, x :: o < s.parts[p].position && o < |s.parts[p].dests| && x in s.parts[p].dests[o] ==>
              || (o, x) in s.parts[p].outcomes
              || (Jobs(s) != [] && Jobs(s)[0].On(p, o) && Jobs(s)[0].Owes(x))
  {
    RunInv(cfg, s0, s, n);
    OneJob(s);
    forall o: nat, x | o < s.parts[p].position && o < |s.parts[p].dests| && x in s.parts[p].dests[o]
      ensures || (o, x) in s.parts[p].outcomes
              || (Jobs(s) != [] && Jobs(s)[0].On(p, o) && Jobs(s)[0].Owes(x))
    {
      assert Covered(s, p, o, x);
    }
  }
}
