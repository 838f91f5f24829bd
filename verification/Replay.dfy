/**
 Replaying a part of the replication log: when a target that has seen the log is left as it is by
 seeing it again, across object, tagging, bucket, lifecycle and policy operations.
 */
module Replay {
  import opened Common
  import opened Replicator

  type Place = (string, string)

  /** Objects and configurations lie in buckets that exist. */
  predicate Wf(s: Store) {
    && (forall at :: at in s.objects ==> at.0 in s.buckets)
    && (forall b :: b in s.lifecycles ==> b in s.buckets)
    && (forall b :: b in s.policies ==> b in s.buckets)
  }

  /** One message; one that raises is skipped. */
  function Seen(skip: bool, m: Message, source: Store, target: Store): Store {
    var r := Replicated(skip, m, source, target);
    if r.Ok? then r.target else target
  }

  predicate Replays(skip: bool, log: seq<Message>, source: Store, target: Store) {
    Pass(skip, log, source, Pass(skip, log, source, target)) == Pass(skip, log, source, target)
  }

  predicate ObjectOp(op: Op) {
    op.PutObject? || op.DeleteObject? || op.PutTagging? || op.DeleteTagging?
  }

  predicate ConfigOp(op: Op) {
    op.PutLifecycle? || op.DeleteLifecycle? || op.PutPolicy? || op.DeletePolicy?
  }

  /** An object operation changes at most the object it names, in a bucket that exists. */
  lemma {:induction false} ObjectOpFrame(skip: bool, m: Message, source: Store, target: Store)
    requires ObjectOp(m.op)
    ensures var after := Seen(skip, m, source, target);
            && after == target.(objects := after.objects)
            && (forall at :: at != m.At() ==> (at in after.objects <==> at in target.objects))
            && (forall at :: at != m.At() && at in target.objects ==> after.objects[at] == target.objects[at])
            && (m.At() in after.objects ==> m.bucket in target.buckets || m.At() in target.objects)
  {
  }

  /** A configuration operation changes at most its bucket's configuration. */
  lemma {:induction false} ConfigOpFrame(skip: bool, m: Message, source: Store, target: Store)
    requires ConfigOp(m.op)
    ensures var after := Seen(skip, m, source, target);
            && after == target.(lifecycles := after.lifecycles, policies := after.policies)
            && (forall b :: b in after.lifecycles ==> b in target.lifecycles || b in target.buckets)
            && (forall b :: b in after.policies ==> b in target.policies || b in target.buckets)
  {
  }

  /** A bucket operation touches no object. */
  lemma {:induction false} BucketOpFrame(skip: bool, m: Message, source: Store, target: Store)
    requires !ObjectOp(m.op) && !ConfigOp(m.op)
    ensures Seen(skip, m, source, target).objects == target.objects
    ensures Wf(target) ==> Wf(Seen(skip, m, source, target))
  {
  }

  lemma {:induction false} SeenWf(skip: bool, m: Message, source: Store, target: Store)
    requires Wf(target)
    ensures Wf(Seen(skip, m, source, target))
  {
    if ObjectOp(m.op) {
      ObjectOpFrame(skip, m, source, target);
    } else if ConfigOp(m.op) {
      ConfigOpFrame(skip, m, source, target);
    } else {
      BucketOpFrame(skip, m, source, target);
    }
  }

  lemma {:induction false} PassWf(skip: bool, log: seq<Message>, source: Store, target: Store)
    requires Wf(target)
    ensures Wf(Pass(skip, log, source, target))
  {
    if log != [] {
      var front := Pass(skip, log[..|log| - 1], source, target);
      PassWf(skip, log[..|log| - 1], source, target);
      SeenWf(skip, log[|log| - 1], source, front);
    }
  }

  lemma {:induction false} PassSplit(skip: bool, a: seq<Message>, b: seq<Message>, source: Store, target: Store)
    ensures Pass(skip, a + b, source, target) == Pass(skip, b, source, Pass(skip, a, source, target))
  {
    if b == [] {
      assert a + b == a;
    } else {
      var n := |b| - 1;
      PassSplit(skip, a, b[..n], source, target);
      assert (a + b)[..|a + b| - 1] == a + b[..n];
    }
  }

  lemma {:induction false} PassCut(skip: bool, log: seq<Message>, i: nat, source: Store, target: Store)
    requires i <= |log|
    ensures Pass(skip, log, source, target) == Pass(skip, log[i..], source, Pass(skip, log[..i], source, target))
  {
    assert log == log[..i] + log[i..];
    PassSplit(skip, log[..i], log[i..], source, target);
  }

  lemma {:induction false} TouchesSplit(a: seq<Message>, b: seq<Message>, at: Place)
    ensures TouchesOf(a + b, at) == TouchesOf(a, at) + TouchesOf(b, at)
  {
    if b == [] {
      assert a + b == a;
    } else {
      var n := |b| - 1;
      TouchesSplit(a, b[..n], at);
      assert (a + b)[..|a + b| - 1] == a + b[..n];
    }
  }

  lemma {:induction false} TouchesCut(log: seq<Message>, i: nat, at: Place)
    requires i <= |log|
    ensures TouchesOf(log, at) == TouchesOf(log[..i], at) + TouchesOf(log[i..], at)
  {
    assert log == log[..i] + log[i..];
    TouchesSplit(log[..i], log[i..], at);
  }

  // ---------------------------------------------------------------- a bucket that is held

  predicate Removes(m: Message, b: string) {
    m.bucket == b && m.op.DeleteBucket?
  }

  predicate Creates(m: Message, b: string) {
    m.bucket == b && m.op.CreateBucket?
  }

  predicate NeverRemoves(log: seq<Message>, b: string) {
    forall i :: 0 <= i < |log| ==> !Removes(log[i], b)
  }

  predicate NeverCreates(log: seq<Message>, b: string) {
    forall i :: 0 <= i < |log| ==> !Creates(log[i], b)
  }

  /** The target has the bucket and keeps it over the log: it is never removed, or the object at
      `guard` is in it and is never deleted. */
  predicate Held(log: seq<Message>, b: string, target: Store, guard: Place) {
    && b in target.buckets
    && (NeverRemoves(log, b)
        || (guard.0 == b && guard in target.objects && Deletes !in TouchesOf(log, guard)))
  }

  lemma {:induction false} HeldFront(log: seq<Message>, b: string, target: Store, guard: Place)
    requires log != [] && Held(log, b, target, guard)
    ensures Held(log[..|log| - 1], b, target, guard)
  {
    if !NeverRemoves(log, b) {
      TouchesCut(log, |log| - 1, guard);
    }
  }

  predicate Guarded(b: string, target: Store) {
    exists at :: at in target.objects && at.0 == b
  }

  lemma {:induction false} ObjectOpEffect(skip: bool, m: Message, source: Store, target: Store)
    requires ObjectOp(m.op) && m.bucket in target.buckets
    ensures Lookup(Seen(skip, m, source, target).objects, m.At()) ==
            Effect(skip, Lookup(source.objects, m.At()), TouchOf(m, m.At()), Lookup(target.objects, m.At()))
  {
  }

  /** A bucket that the message does not remove stays. */
  lemma {:induction false} BucketStays(skip: bool, m: Message, source: Store, target: Store, b: string)
    requires b in target.buckets && (Removes(m, b) ==> Guarded(b, target))
    ensures b in Seen(skip, m, source, target).buckets
  {
    if ObjectOp(m.op) {
      ObjectOpFrame(skip, m, source, target);
    } else if ConfigOp(m.op) {
      ConfigOpFrame(skip, m, source, target);
    }
  }

  /** What one message does to an object in a bucket that it does not remove. */
  lemma {:induction false} SeenObject(skip: bool, m: Message, source: Store, target: Store, at: Place)
    requires at.0 in target.buckets && (Removes(m, at.0) ==> Guarded(at.0, target))
    ensures var after := Seen(skip, m, source, target);
            && at.0 in after.buckets
            && Lookup(after.objects, at) ==
               Effect(skip, Lookup(source.objects, at), TouchOf(m, at), Lookup(target.objects, at))
  {
    BucketStays(skip, m, source, target, at.0);
    if ObjectOp(m.op) {
      ObjectOpFrame(skip, m, source, target);
      if m.At() == at {
        ObjectOpEffect(skip, m, source, target);
      }
    } else if ConfigOp(m.op) {
      ConfigOpFrame(skip, m, source, target);
    } else {
      BucketOpFrame(skip, m, source, target);
    }
  }

  /** Over a log an object in a held bucket goes through the effects of the log's touches. */
  lemma {:induction false} PassObject(skip: bool, log: seq<Message>, source: Store, target: Store,
                                      at: Place, guard: Place)
    requires Held(log, at.0, target, guard)
    ensures at.0 in Pass(skip, log, source, target).buckets
    ensures Lookup(Pass(skip, log, source, target).objects, at) ==
            Effects(skip, Lookup(source.objects, at), TouchesOf(log, at), Lookup(target.objects, at))
    decreases |log|, at != guard
  {
    if log != [] {
      var n := |log| - 1;
      HeldFront(log, at.0, target, guard);
      PassObject(skip, log[..n], source, target, at, guard);
      if !NeverRemoves(log, at.0) {
        PassObject(skip, log[..n], source, target, guard, guard);
        GuardStays(skip, log[..n], source, target, guard);
      }
      SeenObject(skip, log[n], source, Pass(skip, log[..n], source, target), at);
      assert TouchesOf(log, at)[..n] == TouchesOf(log[..n], at);
    }
  }

  lemma {:induction false} GuardStays(skip: bool, log: seq<Message>, source: Store, target: Store, guard: Place)
    requires guard in target.objects && Deletes !in TouchesOf(log, guard)
    requires Lookup(Pass(skip, log, source, target).objects, guard) ==
             Effects(skip, Lookup(source.objects, guard), TouchesOf(log, guard), Lookup(target.objects, guard))
    ensures guard in Pass(skip, log, source, target).objects
  {
    EffectsPresence(skip, Lookup(source.objects, guard), TouchesOf(log, guard), Lookup(target.objects, guard));
    UndeletedStays(Lookup(source.objects, guard).Some?, TouchesOf(log, guard));
  }

  // ---------------------------------------------------------------- configurations

  /** What a message makes of a bucket's configuration: `Some` if it sets or clears it. */
  function ConfigEffect(put: Op, clear: Op, from: map<string, string>, m: Message, b: string):
      Option<Option<string>>
  {
    if m.bucket == b && m.op == clear then Some(None)
    else if m.bucket == b && m.op == put && Offers(put, from, b) then Some(Some(from[b]))
    else None
  }

  /** The source has a configuration to copy. */
  predicate Offers(put: Op, from: map<string, string>, b: string) {
    b in from && !(put.PutPolicy? && from[b] == "")
  }

  /** What a log makes of it: the last setting or clearing. */
  function ConfigEffects(put: Op, clear: Op, from: map<string, string>, log: seq<Message>, b: string):
      Option<Option<string>>
  {
    if log == [] then None
    else
      var last := ConfigEffect(put, clear, from, log[|log| - 1], b);
      if last.Some? then last else ConfigEffects(put, clear, from, log[..|log| - 1], b)
  }

  function Or<T>(o: Option<T>, otherwise: T): T {
    if o.Some? then o.value else otherwise
  }

  /** Both configurations of a bucket after a message. */
  predicate ConfigsFollow(m: Message, source: Store, target: Store, after: Store, b: string) {
    && Lookup(after.lifecycles, b) ==
       Or(ConfigEffect(PutLifecycle, DeleteLifecycle, source.lifecycles, m, b), Lookup(target.lifecycles, b))
    && Lookup(after.policies, b) ==
       Or(ConfigEffect(PutPolicy, DeletePolicy, source.policies, m, b), Lookup(target.policies, b))
  }

  lemma {:induction false} LifecycleOpEffect(skip: bool, m: Message, source: Store, target: Store, b: string)
    requires b in target.buckets && (m.op.PutLifecycle? || m.op.DeleteLifecycle?)
    ensures ConfigsFollow(m, source, target, Seen(skip, m, source, target), b)
  {
  }

  lemma {:induction false} PolicyOpEffect(skip: bool, m: Message, source: Store, target: Store, b: string)
    requires b in target.buckets && (m.op.PutPolicy? || m.op.DeletePolicy?)
    ensures ConfigsFollow(m, source, target, Seen(skip, m, source, target), b)
  {
  }

  lemma {:induction false} SeenConfig(skip: bool, m: Message, source: Store, target: Store, b: string)
    requires b in target.buckets && (Removes(m, b) ==> Guarded(b, target))
    ensures ConfigsFollow(m, source, target, Seen(skip, m, source, target), b)
  {
    if ObjectOp(m.op) {
      ObjectOpFrame(skip, m, source, target);
    } else if m.op.PutLifecycle? || m.op.DeleteLifecycle? {
      LifecycleOpEffect(skip, m, source, target, b);
    } else if m.op.PutPolicy? || m.op.DeletePolicy? {
      PolicyOpEffect(skip, m, source, target, b);
    }
  }

  /** Both configurations of a bucket after a log. */
  predicate BothConfigs(log: seq<Message>, source: Store, before: Store, after: Store, b: string) {
    && Lookup(after.lifecycles, b) ==
       Or(ConfigEffects(PutLifecycle, DeleteLifecycle, source.lifecycles, log, b), Lookup(before.lifecycles, b))
    && Lookup(after.policies, b) ==
       Or(ConfigEffects(PutPolicy, DeletePolicy, source.policies, log, b), Lookup(before.policies, b))
  }

  lemma {:induction false} BothConfigsStep(log: seq<Message>, source: Store, target: Store, before: Store, after: Store, b: string)
    requires log != [] && BothConfigs(log[..|log| - 1], source, target, before, b)
    requires ConfigsFollow(log[|log| - 1], source, before, after, b)
    ensures BothConfigs(log, source, target, after, b)
  {
  }

  lemma {:induction false} PassConfig(skip: bool, log: seq<Message>, source: Store, target: Store,
                                      b: string, guard: Place)
    requires Held(log, b, target, guard)
    ensures BothConfigs(log, source, target, Pass(skip, log, source, target), b)
  {
    if log != [] {
      var n := |log| - 1;
      var before := Pass(skip, log[..n], source, target);
      HeldFront(log, b, target, guard);
      PassConfig(skip, log[..n], source, target, b, guard);
      PassObject(skip, log[..n], source, target, (b, ""), guard);
      if !NeverRemoves(log, b) {
        PassObject(skip, log[..n], source, target, guard, guard);
        GuardStays(skip, log[..n], source, target, guard);
      }
      SeenConfig(skip, log[n], source, before, b);
      BothConfigsStep(log, source, target, before, Seen(skip, log[n], source, before), b);
    }
  }

  lemma {:induction false} ConfigSplit(put: Op, clear: Op, from: map<string, string>, a: seq<Message>,
                                       c: seq<Message>, b: string)
    ensures ConfigEffects(put, clear, from, a + c, b) ==
            var later := ConfigEffects(put, clear, from, c, b);
            if later.Some? then later else ConfigEffects(put, clear, from, a, b)
  {
    if c == [] {
      assert a + c == a;
    } else {
      var n := |c| - 1;
      ConfigSplit(put, clear, from, a, c[..n], b);
      assert (a + c)[..|a + c| - 1] == a + c[..n];
    }
  }

  /** The last message about a bucket's configuration: `Some(true)` if it puts it. */
  function LastConfig(put: Op, clear: Op, log: seq<Message>, b: string): Option<bool> {
    if log == [] then None
    else
      var m := log[|log| - 1];
      if m.bucket == b && (m.op == put || m.op == clear) then Some(m.op == put)
      else LastConfig(put, clear, log[..|log| - 1], b)
  }

  lemma {:induction false} ConfigOffered(put: Op, clear: Op, from: map<string, string>, log: seq<Message>, b: string)
    requires put != clear
    ensures var c, last := ConfigEffects(put, clear, from, log, b), LastConfig(put, clear, log, b);
            if !Offers(put, from, b) then c.Some? ==> c.value.None?
            else if last.None? then c.None?
            else c == Some(if last.value then Some(from[b]) else None)
  {
    if log != [] {
      ConfigOffered(put, clear, from, log[..|log| - 1], b);
    }
  }

  /** The configuration is put in the first part only, and last put there. */
  predicate ConfigStranded(put: Op, clear: Op, first: seq<Message>, second: seq<Message>, b: string) {
    LastConfig(put, clear, second, b).None? && LastConfig(put, clear, first, b) == Some(true)
  }

  /** The configuration after replaying on what the second part made of nothing. */
  lemma {:induction false} ConfigFromNothing(put: Op, clear: Op, from: map<string, string>, first: seq<Message>,
                          second: seq<Message>, b: string)
    requires put != clear
    ensures var y: Option<string> := Or(ConfigEffects(put, clear, from, second, b), None);
            Or(ConfigEffects(put, clear, from, first + second, b), y) == y
            <==> !(Offers(put, from, b) && ConfigStranded(put, clear, first, second, b))
  {
    ConfigSplit(put, clear, from, first, second, b);
    ConfigOffered(put, clear, from, first, b);
    ConfigOffered(put, clear, from, second, b);
  }

  // ---------------------------------------------------------------- a bucket that is missing

  lemma {:induction false} SeenMissing(skip: bool, m: Message, source: Store, target: Store, b: string)
    requires b !in target.buckets && !Creates(m, b)
    ensures b !in Seen(skip, m, source, target).buckets
  {
    if ObjectOp(m.op) {
      ObjectOpFrame(skip, m, source, target);
    } else if ConfigOp(m.op) {
      ConfigOpFrame(skip, m, source, target);
    }
  }

  lemma {:induction false} PassMissing(skip: bool, log: seq<Message>, source: Store, target: Store, b: string)
    requires b !in target.buckets && NeverCreates(log, b)
    ensures b !in Pass(skip, log, source, target).buckets
  {
    if log != [] {
      var n := |log| - 1;
      PassMissing(skip, log[..n], source, target, b);
      SeenMissing(skip, log[n], source, Pass(skip, log[..n], source, target), b);
    }
  }

  /** The store has the bucket, with nothing in it. */
  predicate Bare(s: Store, b: string) {
    && b in s.buckets && !Guarded(b, s)
    && b !in s.lifecycles && b !in s.policies
  }

  /** A missing bucket is bare just after it is created. */
  lemma {:induction false} PassCreated(skip: bool, log: seq<Message>, i: nat, source: Store, target: Store, b: string)
    requires Wf(target) && b !in target.buckets
    requires i < |log| && Creates(log[i], b) && NeverCreates(log[..i], b)
    ensures Bare(Pass(skip, log[..i + 1], source, target), b)
  {
    PassMissing(skip, log[..i], source, target, b);
    PassWf(skip, log[..i], source, target);
    assert log[..i + 1][..i] == log[..i];
  }

  // ---------------------------------------------------------------- removals

  /** Index of the first removal of the bucket, or the length of the log. */
  function FirstRemoval(log: seq<Message>, b: string): (i: nat)
    ensures i <= |log|
  {
    if log == [] then 0
    else
      var n := |log| - 1;
      var i := FirstRemoval(log[..n], b);
      if i < n || Removes(log[n], b) then i else n + 1
  }

  /** Index of the first creation of the bucket, or the length of the log. */
  function FirstCreation(log: seq<Message>, b: string): (i: nat)
    ensures i <= |log|
  {
    if log == [] then 0
    else
      var n := |log| - 1;
      var i := FirstCreation(log[..n], b);
      if i < n || Creates(log[n], b) then i else n + 1
  }

  lemma {:induction false} FirstRemovalIs(log: seq<Message>, b: string)
    ensures var i := FirstRemoval(log, b);
            (i < |log| ==> Removes(log[i], b)) && forall j :: 0 <= j < i ==> !Removes(log[j], b)
  {
    if log != [] {
      FirstRemovalIs(log[..|log| - 1], b);
    }
  }

  lemma {:induction false} FirstCreationIs(log: seq<Message>, b: string)
    ensures var i := FirstCreation(log, b);
            (i < |log| ==> Creates(log[i], b)) && forall j :: 0 <= j < i ==> !Creates(log[j], b)
  {
    if log != [] {
      FirstCreationIs(log[..|log| - 1], b);
    }
  }

  lemma {:induction false} FirstRemovalShift(log: seq<Message>, i: nat, b: string)
    requires i <= FirstRemoval(log, b)
    ensures FirstRemoval(log[i..], b) == FirstRemoval(log, b) - i
  {
    var d, e := FirstRemoval(log, b), FirstRemoval(log[i..], b);
    FirstRemovalIs(log, b);
    FirstRemovalIs(log[i..], b);
    assert d < |log| ==> log[i..][d - i] == log[d];
    assert e < |log| - i ==> log[i..][e] == log[i + e];
  }

  /** Index of the last removal of the bucket, if there is one. */
  function LastRemoval(log: seq<Message>, b: string): (i: nat)
    ensures i < |log| || log == []
  {
    if log == [] then 0
    else
      var n := |log| - 1;
      if Removes(log[n], b) || n == 0 then n else LastRemoval(log[..n], b)
  }

  lemma {:induction false} LastRemovalIs(log: seq<Message>, b: string, d: nat)
    requires d < |log| && Removes(log[d], b)
    ensures var i := LastRemoval(log, b);
            && d <= i < |log| && Removes(log[i], b)
            && forall j :: i < j < |log| ==> !Removes(log[j], b)
  {
    var n := |log| - 1;
    if !Removes(log[n], b) {
      LastRemovalIs(log[..n], b, d);
    }
  }

  lemma {:induction false} RemovalsAre(log: seq<Message>, b: string)
    requires FirstRemoval(log, b) < |log|
    ensures Removes(log[FirstRemoval(log, b)], b) && Removes(log[LastRemoval(log, b)], b)
    ensures FirstRemoval(log, b) <= LastRemoval(log, b) && NeverRemoves(log[LastRemoval(log, b) + 1..], b)
  {
    FirstRemovalIs(log, b);
    LastRemovalIs(log, b, FirstRemoval(log, b));
  }

  /** What the log says after the last removal of the bucket. */
  function Tail(log: seq<Message>, b: string): seq<Message>
    requires FirstRemoval(log, b) < |log|
  {
    log[LastRemoval(log, b) + 1..]
  }

  /** From its first removal of the bucket on, the log deletes no object in it. */
  ghost predicate KeepsObjects(log: seq<Message>, b: string) {
    forall at: Place :: at.0 == b ==> Deletes !in TouchesOf(log[FirstRemoval(log, b)..], at)
  }

  /** No object is put into the bucket between its creation after one removal and another removal. */
  predicate FallowBetween(log: seq<Message>, b: string) {
    var d, e := FirstRemoval(log, b), LastRemoval(log, b);
    forall k :: d < k < |log| && k < e && log[k].bucket == b && log[k].op.PutObject? ==>
      NeverCreates(log[d + 1..k], b)
  }

  /** The log deletes no object of a bucket it has removed, and does not fill a bucket between two
      removals of it. */
  ghost predicate Gentle(log: seq<Message>) {
    forall b :: KeepsObjects(log, b) && FallowBetween(log, b)
  }

  lemma {:induction false} KeepsObjectsTail(log: seq<Message>, b: string, c: nat)
    requires KeepsObjects(log, b) && c <= FirstRemoval(log, b)
    ensures KeepsObjects(log[c..], b)
  {
    FirstRemovalShift(log, c, b);
    assert log[c..][FirstRemoval(log, b) - c..] == log[FirstRemoval(log, b)..];
  }

  lemma {:induction false} NoRemovalKeeps(log: seq<Message>, b: string)
    requires FirstRemoval(log, b) == |log|
    ensures KeepsObjects(log, b)
  {
    assert log[|log|..] == [];
  }

  // ---------------------------------------------------------------- what a pass makes of one bucket

  /** The bucket has gone through the log's effects and is still there. */
  ghost predicate Follows(skip: bool, log: seq<Message>, source: Store, before: Store, after: Store, b: string) {
    && b in after.buckets
    && (forall at: Place :: at.0 == b ==>
          Lookup(after.objects, at) ==
          Effects(skip, Lookup(source.objects, at), TouchesOf(log, at), Lookup(before.objects, at)))
    && BothConfigs(log, source, before, after, b)
  }

  lemma {:induction false} HeldFollows(skip: bool, log: seq<Message>, source: Store, target: Store, b: string, guard: Place)
    requires Held(log, b, target, guard)
    ensures Follows(skip, log, source, target, Pass(skip, log, source, target), b)
  {
    forall at: Place | at.0 == b
      ensures Lookup(Pass(skip, log, source, target).objects, at) ==
              Effects(skip, Lookup(source.objects, at), TouchesOf(log, at), Lookup(target.objects, at))
    {
      PassObject(skip, log, source, target, at, guard);
    }
    PassObject(skip, log, source, target, (b, ""), guard);
    PassConfig(skip, log, source, target, b, guard);
  }

  lemma {:induction false} FollowsTwice(skip: bool, log: seq<Message>, i: nat, source: Store, s: Store, t: Store, u: Store, b: string)
    requires i <= |log|
    requires Follows(skip, log[..i], source, s, t, b) && Follows(skip, log[i..], source, t, u, b)
    ensures Follows(skip, log, source, s, u, b)
  {
    assert log == log[..i] + log[i..];
    ConfigSplit(PutLifecycle, DeleteLifecycle, source.lifecycles, log[..i], log[i..], b);
    ConfigSplit(PutPolicy, DeletePolicy, source.policies, log[..i], log[i..], b);
    forall at: Place | at.0 == b
      ensures Lookup(u.objects, at) ==
              Effects(skip, Lookup(source.objects, at), TouchesOf(log, at), Lookup(s.objects, at))
    {
      TouchesCut(log, i, at);
      EffectsSplit(skip, Lookup(source.objects, at), TouchesOf(log[..i], at), TouchesOf(log[i..], at),
                   Lookup(s.objects, at));
    }
  }

  /** Whether the object is there when the log first removes its bucket. */
  predicate Survives(log: seq<Message>, sourced: bool, at: Place, before: bool) {
    Stays(sourced, TouchesOf(log[..FirstRemoval(log, at.0)], at), before)
  }

  lemma {:induction false} FollowsPresence(skip: bool, log: seq<Message>, source: Store, before: Store, after: Store, at: Place)
    requires Follows(skip, log, source, before, after, at.0)
    ensures at in after.objects <==> Stays(at in source.objects, TouchesOf(log, at), at in before.objects)
  {
    EffectsPresence(skip, Lookup(source.objects, at), TouchesOf(log, at), Lookup(before.objects, at));
    assert Lookup(after.objects, at) ==
           Effects(skip, Lookup(source.objects, at), TouchesOf(log, at), Lookup(before.objects, at));
  }

  /** A bucket that is never removed, or in which an object survives until the removal, is kept. */
  lemma {:induction false} BucketKept(skip: bool, log: seq<Message>, source: Store, target: Store, b: string, guard: Place)
    requires KeepsObjects(log, b) && b in target.buckets
    requires FirstRemoval(log, b) == |log|
             || (guard.0 == b && Survives(log, guard in source.objects, guard, guard in target.objects))
    ensures Follows(skip, log, source, target, Pass(skip, log, source, target), b)
  {
    var d := FirstRemoval(log, b);
    var middle := Pass(skip, log[..d], source, target);
    FirstRemovalIs(log, b);
    HeldFollows(skip, log[..d], source, target, b, guard);
    PassCut(skip, log, d, source, target);
    if d < |log| {
      FollowsPresence(skip, log[..d], source, target, middle, guard);
    } else {
      assert log[d..] == [];
    }
    HeldFollows(skip, log[d..], source, middle, b, guard);
    FollowsTwice(skip, log, d, source, target, middle, Pass(skip, log, source, target), b);
  }

  /** The surviving object is still there at the end. */
  lemma {:induction false} SurvivorStays(log: seq<Message>, sourced: bool, at: Place, before: bool)
    requires KeepsObjects(log, at.0) && Survives(log, sourced, at, before)
    ensures Stays(sourced, TouchesOf(log, at), before)
  {
    var d := FirstRemoval(log, at.0);
    TouchesCut(log, d, at);
    StaysSplit(sourced, TouchesOf(log[..d], at), TouchesOf(log[d..], at), before);
    UndeletedStays(sourced, TouchesOf(log[d..], at));
  }

  // ---------------------------------------------------------------- a bucket that goes

  lemma {:induction false} OnlyPutsAdd(skip: bool, m: Message, source: Store, target: Store)
    requires ObjectOp(m.op) && !m.op.PutObject?
    ensures m.At() in Seen(skip, m, source, target).objects ==> m.At() in target.objects
  {
  }

  /** A bucket without objects gets none, unless it is there to be put into. */
  lemma {:induction false} SeenVacant(skip: bool, m: Message, source: Store, target: Store, b: string)
    requires Wf(target) && !Guarded(b, target)
    requires m.bucket == b && m.op.PutObject? ==> b !in target.buckets
    ensures !Guarded(b, Seen(skip, m, source, target))
  {
    if ObjectOp(m.op) {
      ObjectOpFrame(skip, m, source, target);
      if !m.op.PutObject? {
        OnlyPutsAdd(skip, m, source, target);
      }
    } else if ConfigOp(m.op) {
      ConfigOpFrame(skip, m, source, target);
    } else {
      BucketOpFrame(skip, m, source, target);
    }
  }

  /** A missing bucket stays without objects while nothing is put into it after a creation. */
  lemma {:induction false} StaysVacant(skip: bool, log: seq<Message>, source: Store, target: Store, b: string)
    requires Wf(target) && b !in target.buckets
    requires forall k :: 0 <= k < |log| && log[k].bucket == b && log[k].op.PutObject? ==> NeverCreates(log[..k], b)
    ensures !Guarded(b, Pass(skip, log, source, target))
  {
    if log != [] {
      var n := |log| - 1;
      var before := Pass(skip, log[..n], source, target);
      assert forall k :: 0 <= k < n ==> log[..n][..k] == log[..k];
      StaysVacant(skip, log[..n], source, target, b);
      PassWf(skip, log[..n], source, target);
      if log[n].bucket == b && log[n].op.PutObject? {
        PassMissing(skip, log[..n], source, target, b);
      }
      SeenVacant(skip, log[n], source, before, b);
    }
  }

  /** Removing a bucket without objects. */
  lemma {:induction false} VacantRemoved(skip: bool, log: seq<Message>, e: nat, source: Store, target: Store, b: string)
    requires e < |log| && Removes(log[e], b) && !Guarded(b, Pass(skip, log[..e], source, target))
    ensures b !in Pass(skip, log[..e + 1], source, target).buckets
  {
    assert log[..e + 1][..e] == log[..e];
  }

  lemma {:induction false} Middle(log: seq<Message>, b: string, k: nat)
    requires FirstRemoval(log, b) < LastRemoval(log, b) < |log| && FallowBetween(log, b)
    requires var middle := log[..LastRemoval(log, b)][FirstRemoval(log, b) + 1..];
             k < |middle| && middle[k].bucket == b && middle[k].op.PutObject?
    ensures NeverCreates(log[..LastRemoval(log, b)][FirstRemoval(log, b) + 1..][..k], b)
  {
    var d, e := FirstRemoval(log, b), LastRemoval(log, b);
    assert log[..e][d + 1..][k] == log[d + 1 + k];
    assert log[..e][d + 1..][..k] == log[d + 1..d + 1 + k];
  }

  lemma {:induction false} MiddleVacant(skip: bool, log: seq<Message>, source: Store, gone: Store, b: string)
    requires Wf(gone) && FallowBetween(log, b) && b !in gone.buckets
    requires FirstRemoval(log, b) < LastRemoval(log, b) < |log|
    ensures !Guarded(b, Pass(skip, log[..LastRemoval(log, b)][FirstRemoval(log, b) + 1..], source, gone))
  {
    var d, e := FirstRemoval(log, b), LastRemoval(log, b);
    var middle := log[..e][d + 1..];
    forall k | 0 <= k < |middle| && middle[k].bucket == b && middle[k].op.PutObject?
      ensures NeverCreates(middle[..k], b)
    {
      Middle(log, b, k);
    }
    StaysVacant(skip, middle, source, gone, b);
  }

  /** A bucket without objects at its first removal has none at the last either. */
  lemma {:induction false} VacantAtLast(skip: bool, log: seq<Message>, source: Store, target: Store, b: string)
    requires Wf(target) && FallowBetween(log, b) && FirstRemoval(log, b) < |log|
    requires !Guarded(b, Pass(skip, log[..FirstRemoval(log, b)], source, target))
    ensures !Guarded(b, Pass(skip, log[..LastRemoval(log, b)], source, target))
  {
    var d, e := FirstRemoval(log, b), LastRemoval(log, b);
    RemovalsAre(log, b);
    if d < e {
      VacantRemoved(skip, log, d, source, target, b);
      PassWf(skip, log[..d + 1], source, target);
      MiddleVacant(skip, log, source, Pass(skip, log[..d + 1], source, target), b);
      PassCut(skip, log[..e], d + 1, source, target);
      Slices(log, d + 1, e);
    }
  }

  lemma {:induction false} PassAtLast(skip: bool, log: seq<Message>, e: nat, source: Store, target: Store, b: string) returns (gone: Store)
    requires Wf(target) && e < |log| && Removes(log[e], b)
    requires !Guarded(b, Pass(skip, log[..e], source, target))
    ensures Wf(gone) && b !in gone.buckets
    ensures Pass(skip, log, source, target) == Pass(skip, log[e + 1..], source, gone)
  {
    gone := Pass(skip, log[..e + 1], source, target);
    VacantRemoved(skip, log, e, source, target, b);
    PassWf(skip, log[..e + 1], source, target);
    PassCut(skip, log, e + 1, source, target);
  }

  lemma {:induction false} UnguardedHeld(skip: bool, log: seq<Message>, source: Store, target: Store, b: string)
    requires b in target.buckets && !AnySurvives(log, source, target, b)
    ensures !Guarded(b, Pass(skip, log[..FirstRemoval(log, b)], source, target))
  {
    var d := FirstRemoval(log, b);
    var middle := Pass(skip, log[..d], source, target);
    FirstRemovalIs(log, b);
    HeldFollows(skip, log[..d], source, target, b, (b, ""));
    forall at: Place | at.0 == b ensures at !in middle.objects {
      FollowsPresence(skip, log[..d], source, target, middle, at);
      assert !Survives(log, at in source.objects, at, at in target.objects);
    }
  }

  // ---------------------------------------------------------------- safe logs

  /** The log copies tags of some object too early. */
  ghost predicate TooEarly(log: seq<Message>) {
    exists at :: TagsTooEarly(TouchesOf(log, at))
  }

  /** After the bucket's first creation and before any removal, the log leaves the object in it. */
  predicate KeptByLog(log: seq<Message>, at: Place) {
    var c := FirstCreation(log, at.0);
    c < FirstRemoval(log, at.0) && Survives(log[c + 1..], true, at, false)
  }

  /** The log creates the bucket before it removes it, and then does not remove it or leaves some
      object in it when it first tries to. */
  ghost predicate Lasting(log: seq<Message>, b: string) {
    && FirstCreation(log, b) < FirstRemoval(log, b)
    && (FirstRemoval(log, b) == |log| || exists at: Place :: at.0 == b && KeptByLog(log, at))
  }

  /** The log creates the bucket after its last removal. */
  predicate Renews(log: seq<Message>, b: string)
    requires FirstRemoval(log, b) < |log|
  {
    FirstCreation(Tail(log, b), b) < |Tail(log, b)|
  }

  /** Where the bucket has just been created after its last removal, or the length of the log. */
  function Renewal(log: seq<Message>, b: string): (r: nat)
    requires FirstRemoval(log, b) < |log|
    ensures r <= |log|
  {
    if Renews(log, b) then LastRemoval(log, b) + 1 + FirstCreation(Tail(log, b), b) + 1 else |log|
  }

  /** The log creates the bucket again after its last removal, and what it then puts there keeps the
      bucket from being removed by a replay. */
  ghost predicate Renewed(log: seq<Message>, b: string) {
    && FirstRemoval(log, b) < |log| && Renews(log, b)
    && exists at: Place :: at.0 == b && KeptByReplay(log, at)
  }

  predicate KeptByReplay(log: seq<Message>, at: Place)
    requires FirstRemoval(log, at.0) < |log|
  {
    !KeptByLog(log, at) && Survives(log, true, at, Stays(true, TouchesOf(log[Renewal(log, at.0)..], at), false))
  }

  /** No configuration of the bucket is stranded in the first `c` messages. */
  predicate NoConfigStranded(log: seq<Message>, c: nat, b: string)
    requires c <= |log|
  {
    && !ConfigStranded(PutLifecycle, DeleteLifecycle, log[..c], log[c..], b)
    && !ConfigStranded(PutPolicy, DeletePolicy, log[..c], log[c..], b)
  }

  predicate StrandedAt(skip: bool, log: seq<Message>, c: nat, at: Place)
    requires c <= |log|
  {
    Stranded(skip, TouchesOf(log[..c], at), TouchesOf(log[c..], at))
  }

  /** Nothing of the bucket is stranded before its first creation. */
  ghost predicate NoneStranded(skip: bool, log: seq<Message>, b: string) {
    var c := Min(FirstCreation(log, b) + 1, |log|);
    && NoConfigStranded(log, c, b)
    && forall at: Place :: at.0 == b ==> !StrandedAt(skip, log, c, at)
  }

  /** Nothing of the bucket is stranded before its renewal, but for objects that keep the bucket from
      ever being removed. */
  ghost predicate NoneLeftBehind(skip: bool, log: seq<Message>, b: string)
    requires FirstRemoval(log, b) < |log|
  {
    && NoConfigStranded(log, Renewal(log, b), b)
    && forall at: Place :: at.0 == b && !KeptByLog(log, at) ==> !StrandedAt(skip, log, Renewal(log, b), at)
  }

  /** What a log must be like to be replayed safely on whatever target. */
  ghost predicate Safe(skip: bool, log: seq<Message>) {
    && !(skip && TooEarly(log))
    && (forall b :: Lasting(log, b) ==> NoneStranded(skip, log, b))
    && (forall b :: Renewed(log, b) ==> NoneLeftBehind(skip, log, b))
  }

  /** Two stores agree on a bucket and all that is in it. */
  ghost predicate Same(s: Store, t: Store, b: string) {
    && (b in s.buckets <==> b in t.buckets)
    && (forall at: Place :: at.0 == b ==> Lookup(s.objects, at) == Lookup(t.objects, at))
    && Lookup(s.lifecycles, b) == Lookup(t.lifecycles, b)
    && Lookup(s.policies, b) == Lookup(t.policies, b)
  }

  lemma {:induction false} BothMissing(s: Store, t: Store, b: string)
    requires Wf(s) && Wf(t) && b !in s.buckets && b !in t.buckets
    ensures Same(s, t, b)
  {
  }

  lemma {:induction false} SameEverywhere(s: Store, t: Store)
    requires forall b :: Same(s, t, b)
    ensures s == t
  {
    forall b ensures b in s.buckets <==> b in t.buckets {
      assert Same(s, t, b);
    }
    assert s.buckets == t.buckets;
    forall at: Place ensures Lookup(s.objects, at) == Lookup(t.objects, at) {
      assert Same(s, t, at.0);
    }
    forall b ensures Lookup(s.lifecycles, b) == Lookup(t.lifecycles, b)
             ensures Lookup(s.policies, b) == Lookup(t.policies, b) {
      assert Same(s, t, b);
    }
    SameMap(s.objects, t.objects);
    SameMap(s.lifecycles, t.lifecycles);
    SameMap(s.policies, t.policies);
  }

  lemma {:induction false} SameMap<K, V>(m: map<K, V>, n: map<K, V>)
    requires forall k :: Lookup(m, k) == Lookup(n, k)
    ensures m == n
  {
    forall k ensures k in m <==> k in n {
      assert Lookup(m, k) == Lookup(n, k);
    }
    forall k | k in m ensures m[k] == n[k] {
      assert Lookup(m, k) == Lookup(n, k);
    }
  }

  /** Following the same log twice ends where following it once does. */
  lemma {:induction false} FollowsAgain(skip: bool, log: seq<Message>, source: Store, target: Store, once: Store, twice: Store, b: string)
    requires !(skip && TooEarly(log)) && b in once.buckets
    requires Follows(skip, log, source, target, once, b) && Follows(skip, log, source, once, twice, b)
    ensures Same(once, twice, b)
  {
    forall at: Place | at.0 == b ensures Lookup(once.objects, at) == Lookup(twice.objects, at) {
      EffectsIdempotent(skip, Lookup(source.objects, at), TouchesOf(log, at), Lookup(target.objects, at));
    }
  }

  /** The same for a bucket that was bare after the first `c` messages. */
  lemma {:induction false} FollowsBare(skip: bool, log: seq<Message>, c: nat, source: Store, bare: Store, once: Store, twice: Store,
                    b: string)
    requires c <= |log| && Bare(bare, b)
    requires Follows(skip, log[c..], source, bare, once, b) && Follows(skip, log, source, once, twice, b)
    requires forall at: Place :: at.0 == b && at in source.objects ==> !StrandedAt(skip, log, c, at)
    requires NoConfigStranded(log, c, b)
    ensures Same(once, twice, b)
  {
    forall at: Place | at.0 == b ensures Lookup(once.objects, at) == Lookup(twice.objects, at) {
      TouchesCut(log, c, at);
      FromNothing(skip, Lookup(source.objects, at), TouchesOf(log[..c], at), TouchesOf(log[c..], at));
    }
    assert log == log[..c] + log[c..];
    ConfigFromNothing(PutLifecycle, DeleteLifecycle, source.lifecycles, log[..c], log[c..], b);
    ConfigFromNothing(PutPolicy, DeletePolicy, source.policies, log[..c], log[c..], b);
  }

  // ---------------------------------------------------------------- a safe log replays

  /** Some object of the bucket survives until the log removes it. */
  ghost predicate AnySurvives(log: seq<Message>, source: Store, target: Store, b: string) {
    exists at: Place :: at.0 == b && Survives(log, at in source.objects, at, at in target.objects)
  }

  lemma {:induction false} Slices<T>(s: seq<T>, c: nat, d: nat)
    requires c <= d <= |s|
    ensures s[c..][..d - c] == s[..d][c..] && s[..d][..c] == s[..c]
  {
  }

  /** What survives a later part of the log from nothing survives the whole from anything. */
  lemma {:induction false} SurvivesMore(log: seq<Message>, c: nat, sourced: bool, at: Place, before: bool)
    requires c <= FirstRemoval(log, at.0) && Survives(log[c..], sourced, at, false)
    ensures Survives(log, sourced, at, before)
  {
    var d := FirstRemoval(log, at.0);
    FirstRemovalShift(log, c, at.0);
    Slices(log, c, d);
    TouchesCut(log[..d], c, at);
    StaysGrows(sourced, TouchesOf(log[..d][c..], at), false);
    StaysSplit(sourced, TouchesOf(log[..c], at), TouchesOf(log[..d][c..], at), before);
  }

  lemma {:induction false} NeverCreated(log: seq<Message>, b: string)
    requires FirstCreation(log, b) == |log|
    ensures NeverCreates(log, b)
  {
    FirstCreationIs(log, b);
  }

  /** A pass on a target without the bucket: what is left of it is what the log makes of the bare
      bucket after its first creation. */
  lemma {:induction false} FromMissing(skip: bool, log: seq<Message>, source: Store, target: Store, b: string) returns (bare: Store)
    requires Wf(target) && KeepsObjects(log, b) && b !in target.buckets
    requires FirstCreation(log, b) < FirstRemoval(log, b)
    ensures var c := FirstCreation(log, b) + 1;
            && Bare(bare, b) && Wf(bare) && c <= |log| && KeepsObjects(log[c..], b)
            && FirstRemoval(log[c..], b) == FirstRemoval(log, b) - c
            && Pass(skip, log, source, target) == Pass(skip, log[c..], source, bare)
            && bare == Pass(skip, log[..c], source, target)
  {
    var c := FirstCreation(log, b) + 1;
    FirstCreationIs(log, b);
    PassCreated(skip, log, c - 1, source, target, b);
    bare := Pass(skip, log[..c], source, target);
    PassWf(skip, log[..c], source, target);
    PassCut(skip, log, c, source, target);
    KeepsObjectsTail(log, b, c);
    FirstRemovalShift(log, c, b);
  }

  /** No object of the source keeps a bucket that was missing. */
  ghost predicate NothingKept(log: seq<Message>, source: Store, b: string) {
    FirstCreation(log, b) < FirstRemoval(log, b) ==>
      forall at: Place :: at.0 == b ==>
        !Survives(log[FirstCreation(log, b) + 1..], at in source.objects, at, false)
  }

  lemma {:induction false} PassPrefix(skip: bool, log: seq<Message>, c: nat, d: nat, source: Store, target: Store)
    requires c <= d <= |log|
    ensures Pass(skip, log[..d], source, target) == Pass(skip, log[c..][..d - c], source, Pass(skip, log[..c], source, target))
  {
    PassCut(skip, log[..d], c, source, target);
    Slices(log, c, d);
  }

  lemma {:induction false} UnguardedCreated(skip: bool, log: seq<Message>, source: Store, target: Store, b: string)
    requires Wf(target) && KeepsObjects(log, b) && b !in target.buckets && NothingKept(log, source, b)
    requires FirstCreation(log, b) < FirstRemoval(log, b)
    ensures !Guarded(b, Pass(skip, log[..FirstRemoval(log, b)], source, target))
  {
    var c := FirstCreation(log, b) + 1;
    var bare := FromMissing(skip, log, source, target, b);
    PassPrefix(skip, log, c, FirstRemoval(log, b), source, target);
    NoneSurvivesBare(log[c..], source, bare, b);
    UnguardedHeld(skip, log[c..], source, bare, b);
  }

  lemma {:induction false} NoneSurvivesBare(log: seq<Message>, source: Store, bare: Store, b: string)
    requires Bare(bare, b) && forall at: Place :: at.0 == b ==> !Survives(log, at in source.objects, at, false)
    ensures !AnySurvives(log, source, bare, b)
  {
    forall at: Place | at.0 == b ensures !Survives(log, at in source.objects, at, at in bare.objects) {
    }
  }

  lemma {:induction false} UnguardedMissing(skip: bool, log: seq<Message>, source: Store, target: Store, b: string)
    requires Wf(target) && KeepsObjects(log, b) && b !in target.buckets && NothingKept(log, source, b)
    ensures !Guarded(b, Pass(skip, log[..FirstRemoval(log, b)], source, target))
  {
    var c, d := FirstCreation(log, b), FirstRemoval(log, b);
    if c < d {
      UnguardedCreated(skip, log, source, target, b);
    } else {
      FirstCreationIs(log, b);
      PassMissing(skip, log[..d], source, target, b);
      PassWf(skip, log[..d], source, target);
    }
  }

  lemma {:induction false} NeverRemoved(log: seq<Message>, b: string)
    requires NeverRemoves(log, b)
    ensures FirstRemoval(log, b) == |log|
  {
    FirstRemovalIs(log, b);
  }

  /** What a log that never removes the bucket makes of a target without it. */
  lemma {:induction false} TailResult(skip: bool, log: seq<Message>, source: Store, gone: Store, b: string) returns (bare: Store)
    requires Wf(gone) && b !in gone.buckets && NeverRemoves(log, b)
    ensures var c, once := FirstCreation(log, b), Pass(skip, log, source, gone);
            if c == |log| then b !in once.buckets
            else Bare(bare, b) && Follows(skip, log[c + 1..], source, bare, once, b)
  {
    var c := FirstCreation(log, b);
    NeverRemoved(log, b);
    NoRemovalKeeps(log, b);
    if c == |log| {
      NeverCreated(log, b);
      PassMissing(skip, log, source, gone, b);
      bare := gone;
    } else {
      bare := FromMissing(skip, log, source, gone, b);
      BucketKept(skip, log[c + 1..], source, bare, b, (b, ""));
    }
  }

  lemma {:induction false} TailFollows(skip: bool, log: seq<Message>, e: nat, c: nat, r: nat, source: Store, bare: Store, once: Store, b: string)
    requires e < |log| && c < |log| - (e + 1) && r == e + 1 + c + 1
    requires Follows(skip, log[e + 1..][c + 1..], source, bare, once, b)
    ensures Follows(skip, log[r..], source, bare, once, b)
  {
    assert log[e + 1..][c + 1..] == log[r..];
  }

  /** A pass that finds a bucket without objects at its last removal, in message `e`. */
  lemma {:induction false} AtLast(skip: bool, log: seq<Message>, e: nat, r: nat, source: Store, target: Store, b: string) returns (bare: Store)
    requires Wf(target) && e < |log| && Removes(log[e], b) && NeverRemoves(log[e + 1..], b)
    requires !Guarded(b, Pass(skip, log[..e], source, target))
    requires var c := FirstCreation(log[e + 1..], b); c < |log| - (e + 1) ==> r == e + 1 + c + 1
    ensures var c, once := FirstCreation(log[e + 1..], b), Pass(skip, log, source, target);
            if c == |log| - (e + 1) then b !in once.buckets
            else r <= |log| && Bare(bare, b) && Follows(skip, log[r..], source, bare, once, b)
  {
    var gone := PassAtLast(skip, log, e, source, target, b);
    bare := TailResult(skip, log[e + 1..], source, gone, b);
    var c := FirstCreation(log[e + 1..], b);
    if c < |log| - (e + 1) {
      TailFollows(skip, log, e, c, r, source, bare, Pass(skip, log, source, target), b);
    }
  }

  /** What a pass that finds the bucket without objects at its first removal makes of it: nothing, or
      what the log makes of the bare bucket after its renewal. */
  ghost predicate EndsRenewed(skip: bool, log: seq<Message>, source: Store, bare: Store, once: Store, b: string)
    requires FirstRemoval(log, b) < |log|
  {
    if Renews(log, b) then Bare(bare, b) && Follows(skip, log[Renewal(log, b)..], source, bare, once, b)
    else b !in once.buckets
  }

  lemma {:induction false} BucketGone(skip: bool, log: seq<Message>, source: Store, target: Store, b: string) returns (bare: Store)
    requires Wf(target) && KeepsObjects(log, b) && FallowBetween(log, b) && FirstRemoval(log, b) < |log|
    requires !Guarded(b, Pass(skip, log[..FirstRemoval(log, b)], source, target))
    ensures EndsRenewed(skip, log, source, bare, Pass(skip, log, source, target), b)
  {
    VacantAtLast(skip, log, source, target, b);
    RemovalsAre(log, b);
    bare := AtLast(skip, log, LastRemoval(log, b), Renewal(log, b), source, target, b);
  }

  lemma {:induction false} SameFromBare(skip: bool, log: seq<Message>, source: Store, bare: Store, bare': Store, s: Store, t: Store, b: string)
    requires Bare(bare, b) && Bare(bare', b)
    requires Follows(skip, log, source, bare, s, b) && Follows(skip, log, source, bare', t, b)
    ensures Same(s, t, b)
  {
    forall at: Place | at.0 == b ensures Lookup(s.objects, at) == Lookup(t.objects, at) {
      assert Lookup(bare.objects, at) == Lookup(bare'.objects, at) == None;
    }
  }

  lemma {:induction false} SameEnds(skip: bool, log: seq<Message>, source: Store, bare: Store, bare': Store, s: Store, t: Store, b: string)
    requires FirstRemoval(log, b) < |log| && Wf(s) && Wf(t)
    requires EndsRenewed(skip, log, source, bare, s, b) && EndsRenewed(skip, log, source, bare', t, b)
    ensures Same(s, t, b)
  {
    if Renews(log, b) {
      SameFromBare(skip, log[Renewal(log, b)..], source, bare, bare', s, t, b);
    } else {
      BothMissing(s, t, b);
    }
  }

  lemma {:induction false} NotSourced(ts: seq<Touch>)
    ensures !Stays(false, ts, false)
  {
    if ts != [] {
      NotSourced(ts[..|ts| - 1]);
    }
  }

  /** Whoever keeps the renewed bucket at a replay is in the source. */
  lemma {:induction false} KeeperSourced(log: seq<Message>, r: nat, sourced: bool, g: Place, there: bool)
    requires r <= |log| && there == Stays(sourced, TouchesOf(log[r..], g), false)
    requires Survives(log, sourced, g, there)
    ensures sourced
  {
    if !sourced {
      NotSourced(TouchesOf(log[r..], g));
      NotSourced(TouchesOf(log[..FirstRemoval(log, g.0)], g));
    }
  }

  /** It shows that the log renews the bucket. */
  lemma {:induction false} KeeperRenews(skip: bool, log: seq<Message>, source: Store, bare: Store, once: Store, g: Place)
    requires FirstRemoval(log, g.0) < |log| && Renews(log, g.0) && NothingKept(log, source, g.0)
    requires Bare(bare, g.0) && Follows(skip, log[Renewal(log, g.0)..], source, bare, once, g.0)
    requires Survives(log, g in source.objects, g, g in once.objects)
    ensures Renewed(log, g.0)
  {
    FollowsPresence(skip, log[Renewal(log, g.0)..], source, bare, once, g);
    KeeperSourced(log, Renewal(log, g.0), g in source.objects, g, g in once.objects);
    NotKeptByLog(log, source, g);
    KeptShows(log, g);
  }

  lemma {:induction false} NotKeptByLog(log: seq<Message>, source: Store, g: Place)
    requires NothingKept(log, source, g.0) && g in source.objects
    ensures !KeptByLog(log, g)
  {
  }

  lemma {:induction false} KeptShows(log: seq<Message>, g: Place)
    requires FirstRemoval(log, g.0) < |log| && Renews(log, g.0) && !KeptByLog(log, g)
    requires Survives(log, true, g, Stays(true, TouchesOf(log[Renewal(log, g.0)..], g), false))
    ensures Renewed(log, g.0)
  {
    assert KeptByReplay(log, g);
  }

  /** A bucket that was bare after the first `r` messages is kept by the second pass. */
  lemma {:induction false} KeptAfterGone(skip: bool, log: seq<Message>, r: nat, source: Store, bare: Store, once: Store, b: string, g: Place)
    requires KeepsObjects(log, b) && r <= |log| && Bare(bare, b)
    requires Follows(skip, log[r..], source, bare, once, b)
    requires NoConfigStranded(log, r, b)
    requires forall at: Place :: at.0 == b && at in source.objects ==> !StrandedAt(skip, log, r, at)
    requires g.0 == b && Survives(log, g in source.objects, g, g in once.objects)
    ensures Same(once, Pass(skip, log, source, once), b)
  {
    BucketKept(skip, log, source, once, b, g);
    FollowsBare(skip, log, r, source, bare, once, Pass(skip, log, source, once), b);
  }

  lemma {:induction false} NoSourceLeftBehind(skip: bool, log: seq<Message>, source: Store, b: string)
    requires FirstRemoval(log, b) < |log| && NothingKept(log, source, b) && NoneLeftBehind(skip, log, b)
    ensures forall at: Place :: at.0 == b && at in source.objects ==> !StrandedAt(skip, log, Renewal(log, b), at)
  {
    forall at: Place | at.0 == b && at in source.objects ensures !StrandedAt(skip, log, Renewal(log, b), at) {
      assert !KeptByLog(log, at);
    }
  }

  /** The second pass finds an object in the bucket at its first removal. */
  lemma {:induction false} ThenKept(skip: bool, log: seq<Message>, source: Store, bare: Store, once: Store, b: string, g: Place)
    requires KeepsObjects(log, b) && FirstRemoval(log, b) < |log| && Renews(log, b)
    requires EndsRenewed(skip, log, source, bare, once, b) && NothingKept(log, source, b)
    requires Renewed(log, b) ==> NoneLeftBehind(skip, log, b)
    requires g.0 == b && Survives(log, g in source.objects, g, g in once.objects)
    ensures Same(once, Pass(skip, log, source, once), b)
  {
    KeeperRenews(skip, log, source, bare, once, g);
    NoSourceLeftBehind(skip, log, source, b);
    KeptAfterGone(skip, log, Renewal(log, b), source, bare, once, b, g);
  }

  /** It does not. */
  lemma {:induction false} ThenGone(skip: bool, log: seq<Message>, source: Store, bare: Store, once: Store, b: string)
    requires Wf(once) && KeepsObjects(log, b) && FallowBetween(log, b) && FirstRemoval(log, b) < |log|
    requires EndsRenewed(skip, log, source, bare, once, b)
    requires !Guarded(b, Pass(skip, log[..FirstRemoval(log, b)], source, once))
    ensures Same(once, Pass(skip, log, source, once), b)
  {
    var bare' := BucketGone(skip, log, source, once, b);
    PassWf(skip, log, source, once);
    SameEnds(skip, log, source, bare, bare', once, Pass(skip, log, source, once), b);
  }

  /** The second pass, when the first found the bucket without objects at its removal. */
  lemma {:induction false} AfterGone(skip: bool, log: seq<Message>, source: Store, bare: Store, once: Store, b: string)
    requires Wf(once) && KeepsObjects(log, b) && FallowBetween(log, b) && FirstRemoval(log, b) < |log|
    requires EndsRenewed(skip, log, source, bare, once, b) && NothingKept(log, source, b)
    requires Renewed(log, b) ==> NoneLeftBehind(skip, log, b)
    ensures Same(once, Pass(skip, log, source, once), b)
  {
    if b !in once.buckets {
      UnguardedMissing(skip, log, source, once, b);
      ThenGone(skip, log, source, bare, once, b);
    } else if g: Place :| g.0 == b && Survives(log, g in source.objects, g, g in once.objects) {
      ThenKept(skip, log, source, bare, once, b, g);
    } else {
      UnguardedHeld(skip, log, source, once, b);
      ThenGone(skip, log, source, bare, once, b);
    }
  }

  /** Both passes keep a bucket in which some object survives. */
  lemma {:induction false} ReplaysKept(skip: bool, log: seq<Message>, source: Store, target: Store, b: string, g: Place)
    requires KeepsObjects(log, b) && b in target.buckets && !(skip && TooEarly(log))
    requires FirstRemoval(log, b) == |log|
             || (g.0 == b && Survives(log, g in source.objects, g, g in target.objects))
    ensures var once := Pass(skip, log, source, target);
            Same(once, Pass(skip, log, source, once), b)
  {
    var once := Pass(skip, log, source, target);
    BucketKept(skip, log, source, target, b, g);
    if FirstRemoval(log, b) < |log| {
      SurvivorStays(log, g in source.objects, g, g in target.objects);
      StaysGrows(g in source.objects, TouchesOf(log[..FirstRemoval(log, b)], g), g in target.objects);
      FollowsPresence(skip, log, source, target, once, g);
    }
    BucketKept(skip, log, source, once, b, g);
    FollowsAgain(skip, log, source, target, once, Pass(skip, log, source, once), b);
  }

  lemma {:induction false} HeldKeepsNothing(log: seq<Message>, source: Store, target: Store, b: string)
    requires !AnySurvives(log, source, target, b)
    ensures NothingKept(log, source, b)
  {
    var c := FirstCreation(log, b);
    if c < FirstRemoval(log, b) {
      forall at: Place | at.0 == b ensures !Survives(log[c + 1..], at in source.objects, at, false) {
        if Survives(log[c + 1..], at in source.objects, at, false) {
          SurvivesMore(log, c + 1, at in source.objects, at, at in target.objects);
        }
      }
    }
  }

  lemma {:induction false} ReplaysHeld(skip: bool, log: seq<Message>, source: Store, target: Store, b: string)
    requires Wf(target) && KeepsObjects(log, b) && FallowBetween(log, b) && b in target.buckets
    requires !(skip && TooEarly(log))
    requires Renewed(log, b) ==> NoneLeftBehind(skip, log, b)
    ensures var once := Pass(skip, log, source, target);
            Same(once, Pass(skip, log, source, once), b)
  {
    if FirstRemoval(log, b) == |log| {
      ReplaysKept(skip, log, source, target, b, (b, ""));
    } else if g: Place :| g.0 == b && Survives(log, g in source.objects, g, g in target.objects) {
      ReplaysKept(skip, log, source, target, b, g);
    } else {
      UnguardedHeld(skip, log, source, target, b);
      HeldKeepsNothing(log, source, target, b);
      ReplaysGone(skip, log, source, target, b);
    }
  }

  lemma {:induction false} ReplaysGone(skip: bool, log: seq<Message>, source: Store, target: Store, b: string)
    requires Wf(target) && KeepsObjects(log, b) && FallowBetween(log, b) && FirstRemoval(log, b) < |log|
    requires !Guarded(b, Pass(skip, log[..FirstRemoval(log, b)], source, target)) && NothingKept(log, source, b)
    requires Renewed(log, b) ==> NoneLeftBehind(skip, log, b)
    ensures var once := Pass(skip, log, source, target);
            Same(once, Pass(skip, log, source, once), b)
  {
    var bare := BucketGone(skip, log, source, target, b);
    PassWf(skip, log, source, target);
    AfterGone(skip, log, source, bare, Pass(skip, log, source, target), b);
  }

  /** The two passes over a log whose creation of a missing bucket, in message `c - 1`, lasts. */
  lemma {:induction false} LastingPasses(skip: bool, log: seq<Message>, c: nat, source: Store, target: Store, b: string, g: Place)
      returns (bare: Store)
    requires Wf(target) && KeepsObjects(log, b) && b !in target.buckets
    requires c == FirstCreation(log, b) + 1 <= FirstRemoval(log, b)
    requires FirstRemoval(log, b) == |log| || (g.0 == b && Survives(log[c..], g in source.objects, g, false))
    ensures var once := Pass(skip, log, source, target);
            && Bare(bare, b)
            && Follows(skip, log[c..], source, bare, once, b)
            && Follows(skip, log, source, once, Pass(skip, log, source, once), b)
  {
    bare := FromMissing(skip, log, source, target, b);
    assert g.0 == b ==> g !in bare.objects;
    BucketKept(skip, log[c..], source, bare, b, g);
    LastingAgain(skip, log, c, source, bare, Pass(skip, log, source, target), b, g);
  }

  lemma {:induction false} LastingAgain(skip: bool, log: seq<Message>, c: nat, source: Store, bare: Store, once: Store, b: string, g: Place)
    requires KeepsObjects(log, b) && c <= FirstRemoval(log, b) && Bare(bare, b)
    requires Follows(skip, log[c..], source, bare, once, b)
    requires FirstRemoval(log, b) == |log| || (g.0 == b && Survives(log[c..], g in source.objects, g, false))
    ensures Follows(skip, log, source, once, Pass(skip, log, source, once), b)
  {
    if FirstRemoval(log, b) < |log| {
      KeepsObjectsTail(log, b, c);
      SurvivorStays(log[c..], g in source.objects, g, false);
      FollowsPresence(skip, log[c..], source, bare, once, g);
      SurvivesMore(log, c, g in source.objects, g, true);
    }
    BucketKept(skip, log, source, once, b, g);
  }

  lemma {:induction false} ReplaysLasting(skip: bool, log: seq<Message>, c: nat, source: Store, target: Store, b: string, g: Place)
    requires Wf(target) && KeepsObjects(log, b) && b !in target.buckets
    requires c == FirstCreation(log, b) + 1 <= FirstRemoval(log, b)
    requires FirstRemoval(log, b) == |log| || (g.0 == b && Survives(log[c..], g in source.objects, g, false))
    requires NoConfigStranded(log, c, b)
    requires forall at: Place :: at.0 == b && at in source.objects ==> !StrandedAt(skip, log, c, at)
    ensures var once := Pass(skip, log, source, target);
            Same(once, Pass(skip, log, source, once), b)
  {
    var once := Pass(skip, log, source, target);
    var bare := LastingPasses(skip, log, c, source, target, b, g);
    FollowsBare(skip, log, c, source, bare, once, Pass(skip, log, source, once), b);
  }

  /** Surviving with the source's help means surviving with a source that has everything. */
  lemma {:induction false} LastingSurvivor(log: seq<Message>, g: Place, sourced: bool)
    requires FirstCreation(log, g.0) < FirstRemoval(log, g.0)
    requires Survives(log[FirstCreation(log, g.0) + 1..], sourced, g, false)
    ensures KeptByLog(log, g) && Lasting(log, g.0)
  {
    var later := log[FirstCreation(log, g.0) + 1..];
    StaysGrows(sourced, TouchesOf(later[..FirstRemoval(later, g.0)], g), false);
  }

  lemma {:induction false} FindKeeper(log: seq<Message>, source: Store, b: string) returns (g: Place)
    requires !NothingKept(log, source, b)
    ensures g.0 == b && FirstCreation(log, b) < FirstRemoval(log, b)
    ensures Survives(log[FirstCreation(log, b) + 1..], g in source.objects, g, false)
    ensures Lasting(log, b)
  {
    g :| g.0 == b && Survives(log[FirstCreation(log, b) + 1..], g in source.objects, g, false);
    LastingSurvivor(log, g, g in source.objects);
  }

  lemma {:induction false} NoneStrandedIs(skip: bool, log: seq<Message>, c: nat, b: string)
    requires c == FirstCreation(log, b) + 1 <= |log| && NoneStranded(skip, log, b)
    ensures NoConfigStranded(log, c, b) && forall at: Place :: at.0 == b ==> !StrandedAt(skip, log, c, at)
  {
  }

  /** A missing bucket that the source's objects keep once the log has created it. */
  lemma {:induction false} ReplaysCreated(skip: bool, log: seq<Message>, source: Store, target: Store, b: string, g: Place)
    requires Wf(target) && KeepsObjects(log, b) && b !in target.buckets && NoneStranded(skip, log, b)
    requires FirstCreation(log, b) < FirstRemoval(log, b)
    requires FirstRemoval(log, b) == |log|
             || (g.0 == b && Survives(log[FirstCreation(log, b) + 1..], g in source.objects, g, false))
    ensures var once := Pass(skip, log, source, target);
            Same(once, Pass(skip, log, source, once), b)
  {
    var c := FirstCreation(log, b) + 1;
    NoneStrandedIs(skip, log, c, b);
    ReplaysLasting(skip, log, c, source, target, b, g);
  }

  lemma {:induction false} ReplaysMissing(skip: bool, log: seq<Message>, source: Store, target: Store, b: string)
    requires Wf(target) && KeepsObjects(log, b) && FallowBetween(log, b) && b !in target.buckets
    requires Lasting(log, b) ==> NoneStranded(skip, log, b)
    requires Renewed(log, b) ==> NoneLeftBehind(skip, log, b)
    ensures var once := Pass(skip, log, source, target);
            Same(once, Pass(skip, log, source, once), b)
  {
    var c, d := FirstCreation(log, b), FirstRemoval(log, b);
    if c < d == |log| {
      ReplaysCreated(skip, log, source, target, b, (b, ""));
    } else if d == |log| {
      StaysMissing(skip, log, source, target, b);
    } else if NothingKept(log, source, b) {
      UnguardedMissing(skip, log, source, target, b);
      ReplaysGone(skip, log, source, target, b);
    } else {
      var g := FindKeeper(log, source, b);
      ReplaysCreated(skip, log, source, target, b, g);
    }
  }

  lemma {:induction false} StaysMissing(skip: bool, log: seq<Message>, source: Store, target: Store, b: string)
    requires Wf(target) && b !in target.buckets && FirstCreation(log, b) == |log|
    ensures var once := Pass(skip, log, source, target);
            Same(once, Pass(skip, log, source, once), b)
  {
    var once := Pass(skip, log, source, target);
    NeverCreated(log, b);
    PassMissing(skip, log, source, target, b);
    PassMissing(skip, log, source, once, b);
    PassWf(skip, log, source, target);
    PassWf(skip, log, source, once);
    BothMissing(once, Pass(skip, log, source, once), b);
  }

  /** A safe log leaves the target it produced as it is. */
  lemma {:induction false} SafeReplays(skip: bool, log: seq<Message>, source: Store, target: Store)
    requires Wf(target) && Gentle(log) && Safe(skip, log)
    ensures Replays(skip, log, source, target)
  {
    var once := Pass(skip, log, source, target);
    forall b ensures Same(once, Pass(skip, log, source, once), b) {
      if b in target.buckets {
        ReplaysHeld(skip, log, source, target, b);
      } else {
        ReplaysMissing(skip, log, source, target, b);
      }
    }
    SameEverywhere(once, Pass(skip, log, source, once));
  }

  function Repeat(skip: bool, n: nat, log: seq<Message>, source: Store, target: Store): Store {
    if n == 0 then target else Pass(skip, log, source, Repeat(skip, n - 1, log, source, target))
  }

  /** Replay idempotence: with the source unchanged, rewinding to offset `i` and processing the rest
      of the log `n` more times leaves the target as one pass over the log leaves it. */
  lemma {:induction false} ReplayIdempotent(skip: bool, log: seq<Message>, i: nat, n: nat,
                                            source: Store, target: Store)
    requires i <= |log| && Wf(target) && Gentle(log[i..]) && Safe(skip, log[i..])
    ensures var once := Pass(skip, log, source, target);
            Repeat(skip, n, log[i..], source, once) == once
  {
    if n > 0 {
      ReplayIdempotent(skip, log, i, n - 1, source, target);
      PassCut(skip, log, i, source, target);
      PassWf(skip, log[..i], source, target);
      SafeReplays(skip, log[i..], source, Pass(skip, log[..i], source, target));
    }
  }

  // ---------------------------------------------------------------- the condition is exact

  /** A key longer than any in the log. */
  function LongKey(log: seq<Message>): (k: string)
    ensures forall i :: 0 <= i < |log| ==> |log[i].key| < |k|
  {
    if log == [] then ""
    else
      var k, last := LongKey(log[..|log| - 1]), log[|log| - 1].key;
      if |last| < |k| then k else last + "x"
  }

  lemma {:induction false} Untouched(log: seq<Message>, at: Place)
    requires forall i :: 0 <= i < |log| ==> log[i].At() != at
    ensures forall t :: t in TouchesOf(log, at) ==> t.Leaves?
  {
    if log != [] {
      Untouched(log[..|log| - 1], at);
    }
  }

  /** A source with everything in one bucket: tagged objects, a lifecycle and a policy. */
  function FullSource(b: string, places: set<Place>): Store {
    Store({b}, map at | at in places :: Object([1], [("k", "v")]), map[b := "p"], map[b := "p"])
  }

  /** A target with all buckets of the log and one object the log does not touch. */
  function GuardedTarget(log: seq<Message>, b: string): Store {
    Store({b} + set i | 0 <= i < |log| :: log[i].bucket, map[(b, LongKey(log)) := Object([], [])], map[], map[])
  }

  /** The untouched object keeps the bucket over any number of passes. */
  lemma {:induction false} GuardedPasses(skip: bool, log: seq<Message>, source: Store, b: string)
    ensures var target := GuardedTarget(log, b);
            var once := Pass(skip, log, source, target);
            && Follows(skip, log, source, target, once, b)
            && Follows(skip, log, source, once, Pass(skip, log, source, once), b)
  {
    var guard := (b, LongKey(log));
    var target := GuardedTarget(log, b);
    var once := Pass(skip, log, source, target);
    Untouched(log, guard);
    HeldFollows(skip, log, source, target, b, guard);
    UndeletedStays(guard in source.objects, TouchesOf(log, guard));
    FollowsPresence(skip, log, source, target, once, guard);
    HeldFollows(skip, log, source, once, b, guard);
  }

  lemma {:induction false} TooEarlyShows(log: seq<Message>, at: Place)
    requires TagsTooEarly(TouchesOf(log, at))
    ensures !Replays(true, log, FullSource(at.0, {at}), GuardedTarget(log, at.0))
  {
    var source, target := FullSource(at.0, {at}), GuardedTarget(log, at.0);
    var once := Pass(true, log, source, target);
    GuardedPasses(true, log, source, at.0);
    if at == (at.0, LongKey(log)) {
      Untouched(log, at);
    }
    var ts, x := TouchesOf(log, at), Lookup(source.objects, at);
    EffectsClosed(true, x, ts, None);
    EffectsClosed(true, x, ts, Effects(true, x, ts, None));
    assert Lookup(target.objects, at) == None;
    assert Lookup(once.objects, at) == Some(Object([1], []));
    assert Lookup(Pass(true, log, source, once).objects, at) == Some(Object([1], [("k", "v")]));
  }

  const NOTHING := Store({}, map[], map[], map[])

  lemma {:induction false} StrandedObjectDiffers(skip: bool, log: seq<Message>, c: nat, source: Store, bare: Store, once: Store,
                              twice: Store, at: Place)
    requires c <= |log| && Bare(bare, at.0) && at in source.objects && source.objects[at].tags != []
    requires Follows(skip, log[c..], source, bare, once, at.0) && Follows(skip, log, source, once, twice, at.0)
    requires Stranded(skip, TouchesOf(log[..c], at), TouchesOf(log[c..], at))
    ensures once != twice
  {
    TouchesCut(log, c, at);
    StrandedShows(skip, source.objects[at], TouchesOf(log[..c], at), TouchesOf(log[c..], at));
    assert Lookup(source.objects, at) == Some(source.objects[at]) && Lookup(bare.objects, at) == None;
    assert Lookup(twice.objects, at) != Lookup(once.objects, at);
  }

  lemma {:induction false} StrandedConfigDiffers(log: seq<Message>, c: nat, source: Store, bare: Store, once: Store,
                              twice: Store, b: string)
    requires c <= |log| && Bare(bare, b)
    requires Offers(PutLifecycle, source.lifecycles, b) && Offers(PutPolicy, source.policies, b)
    requires BothConfigs(log[c..], source, bare, once, b) && BothConfigs(log, source, once, twice, b)
    requires ConfigStranded(PutLifecycle, DeleteLifecycle, log[..c], log[c..], b)
             || ConfigStranded(PutPolicy, DeletePolicy, log[..c], log[c..], b)
    ensures once != twice
  {
    assert log == log[..c] + log[c..];
    ConfigFromNothing(PutLifecycle, DeleteLifecycle, source.lifecycles, log[..c], log[c..], b);
    ConfigFromNothing(PutPolicy, DeletePolicy, source.policies, log[..c], log[c..], b);
  }

  /** Something is stranded in the first `c` messages: an object at `at`, or a configuration. */
  predicate SomeStranded(skip: bool, log: seq<Message>, c: nat, at: Place)
    requires c <= |log|
  {
    StrandedAt(skip, log, c, at) || !NoConfigStranded(log, c, at.0)
  }

  lemma {:induction false} SomeStrandedDiffers(skip: bool, log: seq<Message>, c: nat, source: Store, bare: Store, once: Store,
                            twice: Store, at: Place)
    requires c <= |log| && Bare(bare, at.0) && at in source.objects && source.objects[at].tags != []
    requires Offers(PutLifecycle, source.lifecycles, at.0) && Offers(PutPolicy, source.policies, at.0)
    requires Follows(skip, log[c..], source, bare, once, at.0) && Follows(skip, log, source, once, twice, at.0)
    requires SomeStranded(skip, log, c, at)
    ensures once != twice
  {
    if StrandedAt(skip, log, c, at) {
      StrandedObjectDiffers(skip, log, c, source, bare, once, twice, at);
    } else {
      StrandedConfigDiffers(log, c, source, bare, once, twice, at.0);
    }
  }

  /** The source has tagged objects at both places, and both configurations of their bucket. */
  predicate HasAll(source: Store, g: Place, at: Place) {
    && g in source.objects && at in source.objects && source.objects[at].tags != []
    && Offers(PutLifecycle, source.lifecycles, at.0) && Offers(PutPolicy, source.policies, at.0)
  }

  lemma {:induction false} FullSourceHasAll(b: string, g: Place, at: Place)
    requires at.0 == b
    ensures HasAll(FullSource(b, {g, at}), g, at)
  {
  }

  /** A survivor and something stranded are enough to show a log that is not safe. */
  lemma {:induction false} StrandedLogShows(skip: bool, log: seq<Message>, c: nat, source: Store, g: Place, at: Place)
    requires KeepsObjects(log, at.0) && c == FirstCreation(log, at.0) + 1 <= FirstRemoval(log, at.0) && g.0 == at.0
    requires FirstRemoval(log, at.0) == |log| || Survives(log[c..], true, g, false)
    requires SomeStranded(skip, log, c, at) && HasAll(source, g, at)
    ensures !Replays(skip, log, source, NOTHING)
  {
    var once := Pass(skip, log, source, NOTHING);
    var bare := LastingPasses(skip, log, c, source, NOTHING, at.0, g);
    SomeStrandedDiffers(skip, log, c, source, bare, once, Pass(skip, log, source, once), at);
  }

  lemma {:induction false} FullSourceKeeps(log: seq<Message>, g: Place, at: Place)
    requires g.0 == at.0 && !KeptByLog(log, g) && !KeptByLog(log, at)
    ensures NothingKept(log, FullSource(at.0, {g, at}), at.0)
  {
    var source := FullSource(at.0, {g, at});
    var c := FirstCreation(log, at.0);
    if c < FirstRemoval(log, at.0) {
      var later := log[c + 1..];
      forall x: Place | x.0 == at.0 ensures !Survives(later, x in source.objects, x, false) {
        NotSourced(TouchesOf(later[..FirstRemoval(later, at.0)], x));
      }
    }
  }

  lemma {:induction false} LeftBehindDiffers(skip: bool, log: seq<Message>, r: nat, source: Store, bare: Store, once: Store, g: Place, at: Place)
    requires KeepsObjects(log, at.0) && r <= |log| && g.0 == at.0 && Bare(bare, at.0)
    requires HasAll(source, g, at) && Follows(skip, log[r..], source, bare, once, at.0)
    requires Survives(log, true, g, Stays(true, TouchesOf(log[r..], g), false))
    requires SomeStranded(skip, log, r, at)
    ensures once != Pass(skip, log, source, once)
  {
    FollowsPresence(skip, log[r..], source, bare, once, g);
    BucketKept(skip, log, source, once, at.0, g);
    SomeStrandedDiffers(skip, log, r, source, bare, once, Pass(skip, log, source, once), at);
  }

  /** The same for what is left behind before a renewal. */
  lemma {:induction false} LeftBehindShows(skip: bool, log: seq<Message>, g: Place, at: Place)
    requires KeepsObjects(log, at.0) && FallowBetween(log, at.0) && g.0 == at.0 && FirstRemoval(log, at.0) < |log|
    requires Renews(log, at.0) && KeptByReplay(log, g) && !KeptByLog(log, at)
    requires SomeStranded(skip, log, Renewal(log, at.0), at)
    ensures !Replays(skip, log, FullSource(at.0, {g, at}), NOTHING)
  {
    var b, source := at.0, FullSource(at.0, {g, at});
    FullSourceKeeps(log, g, at);
    FullSourceHasAll(b, g, at);
    UnguardedMissing(skip, log, source, NOTHING, b);
    var bare := BucketGone(skip, log, source, NOTHING, b);
    LeftBehindDiffers(skip, log, Renewal(log, b), source, bare, Pass(skip, log, source, NOTHING), g, at);
  }

  lemma {:induction false} FullSourceWf(b: string, places: set<Place>)
    requires forall at :: at in places ==> at.0 == b
    ensures Wf(FullSource(b, places))
  {
  }

  lemma {:induction false} FindSurvivor(log: seq<Message>, b: string) returns (g: Place)
    requires Lasting(log, b)
    ensures g.0 == b && (FirstRemoval(log, b) == |log| || KeptByLog(log, g))
  {
    g := (b, "");
    if FirstRemoval(log, b) < |log| {
      g :| g.0 == b && KeptByLog(log, g);
    }
  }

  lemma {:induction false} FindStranded(skip: bool, log: seq<Message>, b: string) returns (at: Place)
    requires FirstCreation(log, b) < |log| && !NoneStranded(skip, log, b)
    ensures at.0 == b && SomeStranded(skip, log, FirstCreation(log, b) + 1, at)
  {
    at := (b, "");
    if x: Place :| x.0 == b && StrandedAt(skip, log, FirstCreation(log, b) + 1, x) {
      at := x;
    }
  }

  lemma {:induction false} FindLeftBehind(skip: bool, log: seq<Message>, b: string) returns (g: Place, at: Place)
    requires Renewed(log, b) && !NoneLeftBehind(skip, log, b)
    ensures g.0 == at.0 == b && KeptByReplay(log, g) && !KeptByLog(log, at)
    ensures SomeStranded(skip, log, Renewal(log, b), at)
  {
    g :| g.0 == b && KeptByReplay(log, g);
    at := g;
    if x: Place :| x.0 == b && !KeptByLog(log, x) && StrandedAt(skip, log, Renewal(log, b), x) {
      at := x;
    }
  }

  lemma {:induction false} LastingShows(skip: bool, log: seq<Message>, b: string) returns (source: Store)
    requires KeepsObjects(log, b) && Lasting(log, b) && !NoneStranded(skip, log, b)
    ensures Wf(source) && !Replays(skip, log, source, NOTHING)
  {
    var g := FindSurvivor(log, b);
    var at := FindStranded(skip, log, b);
    source := FullSource(b, {g, at});
    FullSourceHasAll(b, g, at);
    StrandedLogShows(skip, log, FirstCreation(log, b) + 1, source, g, at);
    FullSourceWf(b, {g, at});
  }

  lemma {:induction false} RenewedShows(skip: bool, log: seq<Message>, b: string) returns (source: Store)
    requires Gentle(log) && Renewed(log, b) && !NoneLeftBehind(skip, log, b)
    ensures Wf(source) && !Replays(skip, log, source, NOTHING)
  {
    var g, at := FindLeftBehind(skip, log, b);
    LeftBehindShows(skip, log, g, at);
    source := FullSource(b, {g, at});
    FullSourceWf(b, {g, at});
  }

  lemma {:induction false} UnsafeShows(skip: bool, log: seq<Message>) returns (source: Store, target: Store)
    requires Gentle(log) && !Safe(skip, log)
    ensures Wf(source) && Wf(target) && !Replays(skip, log, source, target)
  {
    target := NOTHING;
    if skip && TooEarly(log) {
      var at :| TagsTooEarly(TouchesOf(log, at));
      TooEarlyShows(log, at);
      source, target := FullSource(at.0, {at}), GuardedTarget(log, at.0);
    } else if b :| Lasting(log, b) && !NoneStranded(skip, log, b) {
      source := LastingShows(skip, log, b);
    } else {
      var b :| Renewed(log, b) && !NoneLeftBehind(skip, log, b);
      source := RenewedShows(skip, log, b);
    }
  }

  /** A gentle log is left as it is by a replay, for all sources and all targets, whether or not
      they have its buckets, if and only if it is safe. */
  lemma {:induction false} ReplayIff(skip: bool, log: seq<Message>)
    requires Gentle(log)
    ensures (forall source, target :: Wf(source) && Wf(target) ==> Replays(skip, log, source, target))
        <==> Safe(skip, log)
  {
    if Safe(skip, log) {
      forall source, target | Wf(source) && Wf(target) ensures Replays(skip, log, source, target) {
        SafeReplays(skip, log, source, target);
      }
    } else {
      var source, target := UnsafeShows(skip, log);
      assert !Replays(skip, log, source, target);
    }
  }

  /** The target has every bucket of the log, and the log removes none. */
  predicate Stable(log: seq<Message>, target: Store) {
    forall i :: 0 <= i < |log| ==> log[i].bucket in target.buckets && !log[i].op.DeleteBucket?
  }

  /** Where the buckets exist and stay, only tags copied too early stand in the way. */
  lemma {:induction false} StableReplayIff(skip: bool, log: seq<Message>)
    requires forall i :: 0 <= i < |log| ==> !log[i].op.DeleteBucket?
    ensures (forall source, target :: Wf(target) && Stable(log, target) ==> Replays(skip, log, source, target))
        <==> !(skip && TooEarly(log))
  {
    if skip && TooEarly(log) {
      var at :| TagsTooEarly(TouchesOf(log, at));
      TooEarlyShows(log, at);
      assert Wf(GuardedTarget(log, at.0)) && Stable(log, GuardedTarget(log, at.0));
    } else {
      forall source, target | Wf(target) && Stable(log, target) ensures Replays(skip, log, source, target) {
        StableReplays(skip, log, source, target);
      }
    }
  }

  lemma {:induction false} NothingLate(log: seq<Message>)
    requires forall i :: 0 <= i < |log| ==> !log[i].op.DeleteBucket?
    ensures forall b :: KeepsObjects(log, b)
  {
    forall b ensures KeepsObjects(log, b) {
      FirstRemovalIs(log, b);
      NoRemovalKeeps(log, b);
    }
  }

  lemma {:induction false} StableReplays(skip: bool, log: seq<Message>, source: Store, target: Store)
    requires Wf(target) && Stable(log, target) && !(skip && TooEarly(log))
    ensures Replays(skip, log, source, target)
  {
    var once := Pass(skip, log, source, target);
    NothingLate(log);
    forall b ensures Same(once, Pass(skip, log, source, once), b) {
      FirstRemovalIs(log, b);
      if b in target.buckets {
        ReplaysKept(skip, log, source, target, b, (b, ""));
      } else {
        FirstCreationIs(log, b);
        StaysMissing(skip, log, source, target, b);
      }
    }
    SameEverywhere(once, Pass(skip, log, source, once));
  }

  // ---------------------------------------------------------------- examples

  lemma {:induction false} PassTwo(skip: bool, a: Message, b: Message, source: Store, target: Store)
    ensures Pass(skip, [a, b], source, target) == Seen(skip, b, source, Seen(skip, a, source, target))
  {
    assert [a, b][..1] == [a] && [a][..0] == [];
    assert Pass(skip, [], source, target) == target;
    assert LastSeen(skip, [a], source, target) == Seen(skip, a, source, target);
    assert LastSeen(skip, [a, b], source, target) == Seen(skip, b, source, Pass(skip, [a], source, target));
  }

  /** A policy that arrives before its bucket is skipped the first time only. */
  lemma {:induction false} PolicyFirstExample()
    ensures var log := [Message(PutPolicy, "b", ""), Message(CreateBucket, "b", "")];
            !Replays(false, log, FullSource("b", {}), NOTHING)
  {
    var put, create := Message(PutPolicy, "b", ""), Message(CreateBucket, "b", "");
    var source := FullSource("b", {});
    var once := Pass(false, [put, create], source, NOTHING);
    PassTwo(false, put, create, source, NOTHING);
    PassTwo(false, put, create, source, once);
    assert once.policies == map[];
    assert "b" in Pass(false, [put, create], source, once).policies;
  }

  /** With the shortcut on, tags copied before the first put of an object come back at a replay. */
  lemma {:induction false} EarlyTagsExample()
    ensures var log := [Message(PutTagging, "b", "o"), Message(PutObject, "b", "o")];
            var target := Store({"b"}, map[], map[], map[]);
            && Replays(false, log, FullSource("b", {("b", "o")}), target)
            && !Replays(true, log, FullSource("b", {("b", "o")}), target)
  {
    var tag, put := Message(PutTagging, "b", "o"), Message(PutObject, "b", "o");
    var source, target := FullSource("b", {("b", "o")}), Store({"b"}, map[], map[], map[]);
    forall skip: bool ensures Replays(skip, [tag, put], source, target) <==> !skip {
      var once := Pass(skip, [tag, put], source, target);
      PassTwo(skip, tag, put, source, target);
      PassTwo(skip, tag, put, source, once);
      assert once.objects == map[("b", "o") := Object([1], [])];
      assert Pass(skip, [tag, put], source, once).objects
          == map[("b", "o") := Object([1], if skip then [("k", "v")] else [])];
      assert !skip ==> Pass(skip, [tag, put], source, once) == once;
    }
  }

  lemma {:induction false} AllLeave(log: seq<Message>, at: Place)
    requires forall i :: 0 <= i < |log| ==> !ObjectOp(log[i].op)
    ensures forall t :: t in TouchesOf(log, at) ==> t.Leaves?
  {
    if log != [] {
      AllLeave(log[..|log| - 1], at);
    }
  }

  lemma {:induction false} LeavesStay(sourced: bool, ts: seq<Touch>, before: bool)
    requires forall t :: t in ts ==> t.Leaves?
    ensures Stays(sourced, ts, before) == before
  {
    if ts != [] {
      assert ts[|ts| - 1] in ts;
      LeavesStay(sourced, ts[..|ts| - 1], before);
    }
  }

  lemma {:induction false} NeverKeptByReplay(log: seq<Message>, at: Place)
    requires FirstRemoval(log, at.0) < |log| && forall i :: 0 <= i < |log| ==> !ObjectOp(log[i].op)
    ensures !KeptByReplay(log, at)
  {
    var d, r := FirstRemoval(log, at.0), Renewal(log, at.0);
    AllLeave(log[r..], at);
    AllLeave(log[..d], at);
    LeavesStay(true, TouchesOf(log[r..], at), false);
    LeavesStay(true, TouchesOf(log[..d], at), false);
  }

  lemma {:induction false} RemoveThenCreateSafe(skip: bool, b: string)
    ensures var log := [Message(DeleteBucket, b, ""), Message(CreateBucket, b, "")];
            Gentle(log) && Safe(skip, log)
  {
    var log := [Message(DeleteBucket, b, ""), Message(CreateBucket, b, "")];
    assert log[0].op.DeleteBucket? && log[1].op.CreateBucket?;
    forall at ensures !TagsTooEarly(TouchesOf(log, at)) {
      AllLeave(log, at);
    }
    forall x ensures !Lasting(log, x) && !Renewed(log, x) && KeepsObjects(log, x) && FallowBetween(log, x) {
      FirstRemovalIs(log, x);
      forall at: Place | at.0 == x ensures Deletes !in TouchesOf(log[FirstRemoval(log, x)..], at) {
        AllLeave(log[FirstRemoval(log, x)..], at);
      }
      FirstCreationIs(log, x);
      assert x == b ==> Removes(log[0], x);
      if FirstRemoval(log, x) < |log| {
        forall at: Place | at.0 == x ensures !KeptByReplay(log, at) {
          NeverKeptByReplay(log, at);
        }
      }
    }
  }

  /** Removing a bucket and creating it again is safe to replay on every target. */
  lemma {:induction false} RenewalExample(skip: bool, source: Store, target: Store, b: string)
    requires Wf(target)
    ensures Replays(skip, [Message(DeleteBucket, b, ""), Message(CreateBucket, b, "")], source, target)
  {
    RemoveThenCreateSafe(skip, b);
    SafeReplays(skip, [Message(DeleteBucket, b, ""), Message(CreateBucket, b, "")], source, target);
  }

  /** Outside gentle logs: a bucket that is not empty when it is to be removed, and is emptied
      afterwards, is removed by the replay. */
  lemma {:induction false} EmptiedLaterExample()
    ensures var log := [Message(DeleteBucket, "b", ""), Message(DeleteObject, "b", "o")];
            var target := Store({"b"}, map[("b", "o") := Object([], [])], map[], map[]);
            !Gentle(log) && !Replays(false, log, NOTHING, target)
  {
    var remove, delete := Message(DeleteBucket, "b", ""), Message(DeleteObject, "b", "o");
    var target := Store({"b"}, map[("b", "o") := Object([], [])], map[], map[]);
    var log := [remove, delete];
    assert !KeepsObjects(log, "b") by {
      FirstRemovalIs(log, "b");
      assert Removes(log[0], "b") && log[0..] == log;
      assert TouchesOf(log, ("b", "o"))[1] == Deletes;
    }
    PassTwo(false, remove, delete, NOTHING, target);
    assert ("b", "o") in target.objects;
    var once := Pass(false, log, NOTHING, target);
    assert once == Store({"b"}, map[], map[], map[]);
    PassTwo(false, remove, delete, NOTHING, once);
    assert "b" !in Pass(false, log, NOTHING, once).buckets;
  }

  /** What a bucket's removal took away comes back at a replay, once the bucket is filled again. */
  lemma {:induction false} RecreatedExample()
    ensures var log := [Message(PutPolicy, "b", ""), Message(DeleteBucket, "b", ""),
                        Message(CreateBucket, "b", ""), Message(PutObject, "b", "o")];
            var target := Store({"b"}, map[], map[], map[]);
            !Replays(false, log, FullSource("b", {("b", "o")}), target)
  {
    var policy, remove := Message(PutPolicy, "b", ""), Message(DeleteBucket, "b", "");
    var create, put := Message(CreateBucket, "b", ""), Message(PutObject, "b", "o");
    var source, target := FullSource("b", {("b", "o")}), Store({"b"}, map[], map[], map[]);
    var log := [policy, remove, create, put];
    var once := Pass(false, log, source, target);
    PassFour(policy, remove, create, put, source, target);
    PassFour(policy, remove, create, put, source, once);
    assert once == Store({"b"}, map[("b", "o") := Object([1], [])], map[], map[]);
    assert ("b", "o") in once.objects;
    assert "b" in Pass(false, log, source, once).policies;
  }

  lemma {:induction false} PassFour(a: Message, b: Message, c: Message, d: Message, source: Store, target: Store)
    ensures Pass(false, [a, b, c, d], source, target)
         == Seen(false, d, source, Seen(false, c, source, Seen(false, b, source, Seen(false, a, source, target))))
  {
    assert [a, b, c, d] == [a, b] + [c, d];
    PassSplit(false, [a, b], [c, d], source, target);
    PassTwo(false, a, b, source, target);
    PassTwo(false, c, d, source, Pass(false, [a, b], source, target));
  }
}
