/**
 replicate_operation as a state-sync function on source and target stores, and what replaying a
 part of the log does to the target.
 */
module Replicator {
  import opened Common

  type Tags = seq<(string, string)>

  datatype Object = Object(body: Bytes, tags: Tags)

  /** A backend's contents.  Objects are addressed by bucket and key. */
  datatype Store = Store(
    buckets: set<string>,
    objects: map<(string, string), Object>,
    lifecycles: map<string, string>,
    policies: map<string, string>)

  datatype Op =
    | PutObject | DeleteObject | PutTagging | DeleteTagging
    | CreateBucket | DeleteBucket
    | PutLifecycle | DeleteLifecycle | PutPolicy | DeletePolicy
    | Unsupported

  datatype Message = Message(op: Op, bucket: string, key: string) {
    function At(): (string, string) {
      (bucket, key)
    }
  }

  datatype Result = Ok(target: Store) | Raised(code: string)

  /** ETags are equal: here, both objects exist with the same body. */
  predicate SameEtag(source: Store, target: Store, at: (string, string)) {
    at in source.objects && at in target.objects && source.objects[at].body == target.objects[at].body
  }

  /** The target after one replicated operation, or the error raised with the target unchanged. */
  function Replicated(skip: bool, m: Message, source: Store, target: Store): Result {
    var b := m.bucket;
    match m.op
    case PutObject =>
      if skip && SameEtag(source, target, m.At()) then Ok(target)
      else if m.At() !in source.objects then Ok(target)
      else if b !in target.buckets then Raised("NoSuchBucket")
      else Ok(target.(objects := target.objects[m.At() := Object(source.objects[m.At()].body, [])]))
    case CreateBucket => Ok(target.(buckets := target.buckets + {b}))
    case DeleteBucket =>
      if b !in target.buckets then Ok(target)
      else if exists at :: at in target.objects && at.0 == b then Raised("BucketNotEmpty")
      else Ok(target.(buckets := target.buckets - {b}, lifecycles := target.lifecycles - {b},
                      policies := target.policies - {b}))
    case DeleteObject =>
      if b !in target.buckets then Raised("NoSuchBucket")
      else Ok(target.(objects := target.objects - {m.At()}))
    case PutTagging =>
      if m.At() !in source.objects then Ok(target)
      else if b !in target.buckets then Raised("NoSuchBucket")
      else if m.At() !in target.objects then Raised("NoSuchKey")
      else Ok(target.(objects := target.objects[m.At() :=
                        target.objects[m.At()].(tags := source.objects[m.At()].tags)]))
    case DeleteTagging =>
      if b !in target.buckets then Raised("NoSuchBucket")
      else if m.At() !in target.objects then Ok(target)
      else Ok(target.(objects := target.objects[m.At() := target.objects[m.At()].(tags := [])]))
    case PutLifecycle =>
      if b !in source.lifecycles then Ok(target)
      else if b !in target.buckets then Raised("NoSuchBucket")
      else Ok(target.(lifecycles := target.lifecycles[b := source.lifecycles[b]]))
    case DeleteLifecycle => Ok(target.(lifecycles := target.lifecycles - {b}))
    case PutPolicy =>
      if b !in source.policies || source.policies[b] == "" then Ok(target)
      else if b !in target.buckets then Raised("NoSuchBucket")
      else Ok(target.(policies := target.policies[b := source.policies[b]]))
    case DeletePolicy => Ok(target.(policies := target.policies - {b}))
    case Unsupported => Ok(target)
  }

  /** The errors an operation raises, by code: which buckets and objects must be there on the target,
      and that nothing else is an error. */
  lemma {:induction false} RaisesExactly(skip: bool, m: Message, source: Store, target: Store, code: string)
    ensures var at := m.At();
            var missing := m.bucket !in target.buckets;
            Replicated(skip, m, source, target) == Raised(code) <==>
            match m.op
            case PutObject =>
              && code == "NoSuchBucket" && missing && at in source.objects
              && !(skip && at in target.objects && source.objects[at].body == target.objects[at].body)
            case DeleteObject => code == "NoSuchBucket" && missing
            case PutTagging =>
              && at in source.objects
              && (if missing then code == "NoSuchBucket" else code == "NoSuchKey" && at !in target.objects)
            case DeleteTagging => code == "NoSuchBucket" && missing
            case CreateBucket => false
            case DeleteBucket =>
              && code == "BucketNotEmpty" && !missing
              && exists key :: (m.bucket, key) in target.objects
            case PutLifecycle => code == "NoSuchBucket" && missing && m.bucket in source.lifecycles
            case DeleteLifecycle => false
            case PutPolicy =>
              code == "NoSuchBucket" && missing && m.bucket in source.policies && source.policies[m.bucket] != ""
            case DeletePolicy => false
            case Unsupported => false
  {
    if m.op.DeleteBucket? {
      assert forall place :: place in target.objects && place.0 == m.bucket ==> place == (m.bucket, place.1);
      assert forall key :: (m.bucket, key) in target.objects ==> (m.bucket, key).0 == m.bucket;
    }
  }

  /** What is true of the object, the bucket and its configuration once an operation has not failed. */
  lemma {:induction false} ReturnMeans(skip: bool, m: Message, source: Store, target: Store)
    requires Replicated(skip, m, source, target).Ok?
    ensures var after := Replicated(skip, m, source, target).target;
            var b, at := m.bucket, m.At();
            match m.op
            case PutObject =>
              && (at in source.objects ==> at in after.objects && after.objects[at].body == source.objects[at].body)
              && (at !in source.objects ==> after == target)
            case DeleteObject => at !in after.objects
            case PutTagging =>
              && (at in source.objects ==>
                    && at in after.objects && at in target.objects
                    && after.objects[at].body == target.objects[at].body
                    && after.objects[at].tags == source.objects[at].tags)
              && (at !in source.objects ==> after == target)
            case DeleteTagging =>
              && (at in after.objects <==> at in target.objects)
              && (at in after.objects ==>
                    after.objects[at].body == target.objects[at].body && after.objects[at].tags == [])
            case CreateBucket => b in after.buckets
            case DeleteBucket =>
              && b !in after.buckets
              && (b in target.buckets ==> b !in after.lifecycles && b !in after.policies)
              && (b !in target.buckets ==> after == target)
            case PutLifecycle => b in source.lifecycles ==> Lookup(after.lifecycles, b) == Some(source.lifecycles[b])
            case DeleteLifecycle => b !in after.lifecycles
            case PutPolicy =>
              b in source.policies && source.policies[b] != "" ==>
                Lookup(after.policies, b) == Some(source.policies[b])
            case DeletePolicy => b !in after.policies
            case Unsupported => after == target
  {
  }

  /** Which part of the target an operation can change, and what a put does to the tags. */
  lemma {:induction false} ReturnKeeps(skip: bool, m: Message, source: Store, target: Store)
    requires Replicated(skip, m, source, target).Ok?
    ensures var after := Replicated(skip, m, source, target).target;
            var b, at := m.bucket, m.At();
            && (!m.op.CreateBucket? && !m.op.DeleteBucket? ==> after.buckets == target.buckets)
            && (!m.op.DeleteBucket? && !m.op.PutLifecycle? && !m.op.DeleteLifecycle? ==>
                  after.lifecycles == target.lifecycles)
            && (m.op.PutLifecycle? && b !in source.lifecycles ==> after == target)
            && (!m.op.DeleteBucket? && !m.op.PutPolicy? && !m.op.DeletePolicy? ==> after.policies == target.policies)
            && (m.op.PutPolicy? && (b !in source.policies || source.policies[b] == "") ==> after == target)
            && (m.op !in {PutObject, DeleteObject, PutTagging, DeleteTagging} ==> after.objects == target.objects)
            && (m.op.PutObject? && at in source.objects ==>
                  if skip && at in target.objects && target.objects[at].body == source.objects[at].body
                  then after == target else after.objects[at].tags == [])
  {
  }

  /** An operation touches no object, bucket or configuration but its own. */
  lemma {:induction false} TouchesOwnObject(skip: bool, m: Message, source: Store, target: Store, at: (string, string))
    requires Replicated(skip, m, source, target).Ok? && at != m.At()
    ensures Lookup(Replicated(skip, m, source, target).target.objects, at) == Lookup(target.objects, at)
  {
  }

  lemma {:induction false} TouchesOwnBucket(skip: bool, m: Message, source: Store, target: Store, b: string)
    requires Replicated(skip, m, source, target).Ok? && b != m.bucket
    ensures b in Replicated(skip, m, source, target).target.buckets <==> b in target.buckets
  {
  }

  lemma {:induction false} TouchesOwnConfiguration(skip: bool, m: Message, source: Store, target: Store, b: string)
    requires Replicated(skip, m, source, target).Ok? && b != m.bucket
    ensures var after := Replicated(skip, m, source, target).target;
            && Lookup(after.lifecycles, b) == Lookup(target.lifecycles, b)
            && Lookup(after.policies, b) == Lookup(target.policies, b)
  {
  }

  /** An S3 client over a store.  Mutating calls return the error code they raise, if any, and then
      leave the store as it was. */
  class BackendClient {
    var store: Store

    constructor (store: Store)
      ensures this.store == store
    {
      this.store := store;
    }

    method PutObject(at: (string, string), body: Bytes) returns (error: Option<string>)
      modifies this
      ensures if at.0 in old(store).buckets
              then error.None? && store == old(store).(objects := old(store).objects[at := Object(body, [])])
              else error == Some("NoSuchBucket") && store == old(store)
    {
      if at.0 !in store.buckets {
        return Some("NoSuchBucket");
      }
      store := store.(objects := store.objects[at := Object(body, [])]);
      error := None;
    }

    method DeleteObject(at: (string, string)) returns (error: Option<string>)
      modifies this
      ensures if at.0 !in old(store).buckets then error == Some("NoSuchBucket") && store == old(store)
              else
                && store == old(store).(objects := old(store).objects - {at})
                && error == if at in old(store).objects then None else Some("NoSuchKey")
    {
      if at.0 !in store.buckets {
        return Some("NoSuchBucket");
      }
      if at !in store.objects {
        assert store.objects - {at} == store.objects;
        return Some("NoSuchKey");
      }
      store := store.(objects := store.objects - {at});
      error := None;
    }

    method SetTags(at: (string, string), tags: Tags) returns (error: Option<string>)
      modifies this
      ensures if at.0 !in old(store).buckets then error == Some("NoSuchBucket") && store == old(store)
              else if at !in old(store).objects then error == Some("NoSuchKey") && store == old(store)
              else
                && error.None?
                && store == old(store).(objects := old(store).objects[at := old(store).objects[at].(tags := tags)])
    {
      if at.0 !in store.buckets {
        return Some("NoSuchBucket");
      }
      if at !in store.objects {
        return Some("NoSuchKey");
      }
      store := store.(objects := store.objects[at := store.objects[at].(tags := tags)]);
      error := None;
    }

    method CreateBucket(b: string) returns (error: Option<string>)
      modifies this
      ensures store == old(store).(buckets := old(store).buckets + {b})
      ensures error == if b in old(store).buckets then Some("BucketAlreadyOwnedByYou") else None
    {
      if b in store.buckets {
        assert store.buckets + {b} == store.buckets;
        return Some("BucketAlreadyOwnedByYou");
      }
      store := store.(buckets := store.buckets + {b});
      error := None;
    }

    method DeleteBucket(b: string) returns (error: Option<string>)
      modifies this
      ensures if b !in old(store).buckets then error == Some("NoSuchBucket") && store == old(store)
              else if exists at :: at in old(store).objects && at.0 == b
              then error == Some("BucketNotEmpty") && store == old(store)
              else
                && error.None?
                && store == old(store).(buckets := old(store).buckets - {b},
                                        lifecycles := old(store).lifecycles - {b},
                                        policies := old(store).policies - {b})
    {
      if b !in store.buckets {
        return Some("NoSuchBucket");
      }
      if exists at :: at in store.objects && at.0 == b {
        return Some("BucketNotEmpty");
      }
      store := store.(buckets := store.buckets - {b}, lifecycles := store.lifecycles - {b},
                      policies := store.policies - {b});
      error := None;
    }

    /** Put or clear the lifecycle configuration or the policy of a bucket. */
    method Configure(policy: bool, b: string, value: Option<string>) returns (error: Option<string>)
      modifies this
      ensures value.Some? && b !in old(store).buckets ==>
                error == Some("NoSuchBucket") && store == old(store)
      ensures value.Some? && b in old(store).buckets ==>
                && error.None?
                && store == if policy then old(store).(policies := old(store).policies[b := value.value])
                            else old(store).(lifecycles := old(store).lifecycles[b := value.value])
      ensures value.None? ==>
                && store == (if policy then old(store).(policies := old(store).policies - {b})
                             else old(store).(lifecycles := old(store).lifecycles - {b}))
                && (error.None? || error.value == if policy then "NoSuchBucketPolicy"
                                                  else "NoSuchLifecycleConfiguration")
    {
      error := None;
      if value.Some? {
        if b !in store.buckets {
          return Some("NoSuchBucket");
        }
        if policy {
          store := store.(policies := store.policies[b := value.value]);
        } else {
          store := store.(lifecycles := store.lifecycles[b := value.value]);
        }
      } else if policy {
        if b !in store.policies {
          assert store.policies - {b} == store.policies;
          return Some("NoSuchBucketPolicy");
        }
        store := store.(policies := store.policies - {b});
      } else {
        if b !in store.lifecycles {
          assert store.lifecycles - {b} == store.lifecycles;
          return Some("NoSuchLifecycleConfiguration");
        }
        store := store.(lifecycles := store.lifecycles - {b});
      }
    }
  }

  /** Which error code the replicated operation treats as already done. */
  function Swallow(error: Option<string>, codes: set<string>): Option<string> {
    if error.Some? && error.value in codes then None else error
  }

  method ReplicateOperation(skip: bool, m: Message, source: BackendClient, target: BackendClient)
      returns (error: Option<string>)
    requires source != target
    modifies target
    ensures match Replicated(skip, m, source.store, old(target.store))
      case Ok(after) => error.None? && target.store == after
      case Raised(code) => error == Some(code) && target.store == old(target.store)
    ensures error.None? && m.op.PutObject? && m.At() in source.store.objects ==>
              && m.At() in target.store.objects
              && target.store.objects[m.At()].body == source.store.objects[m.At()].body
  {
    var b, at := m.bucket, m.At();
    error := None;
    match m.op {
      case PutObject =>
        if skip && at in source.store.objects && at in target.store.objects
           && source.store.objects[at].body == target.store.objects[at].body {
          return;
        }
        if at in source.store.objects {
          error := target.PutObject(at, source.store.objects[at].body);
        }
      case CreateBucket =>
        error := target.CreateBucket(b);
        error := Swallow(error, {"BucketAlreadyOwnedByYou", "BucketAlreadyExists"});
      case DeleteBucket =>
        error := target.DeleteBucket(b);
        error := Swallow(error, {"NoSuchBucket"});
      case DeleteObject =>
        error := target.DeleteObject(at);
        error := Swallow(error, {"NoSuchKey"});
      case PutTagging =>
        if at in source.store.objects {
          error := target.SetTags(at, source.store.objects[at].tags);
        }
      case DeleteTagging =>
        error := target.SetTags(at, []);
        error := Swallow(error, {"NoSuchKey"});
      case PutLifecycle =>
        if b in source.store.lifecycles {
          error := target.Configure(false, b, Some(source.store.lifecycles[b]));
        }
      case DeleteLifecycle =>
        error := target.Configure(false, b, None);
        error := Swallow(error, {"NoSuchBucket", "NoSuchLifecycleConfiguration"});
      case PutPolicy =>
        if b in source.store.policies && source.store.policies[b] != "" {
          error := target.Configure(true, b, Some(source.store.policies[b]));
        }
      case DeletePolicy =>
        error := target.Configure(true, b, None);
        error := Swallow(error, {"NoSuchBucket", "NoSuchBucketPolicy"});
      case Unsupported =>
    }
  }

  /** One pass over a log. */
  function Pass(skip: bool, log: seq<Message>, source: Store, target: Store): Store
    decreases |log|, 1
  {
    if log == [] then target else LastSeen(skip, log, source, target)
  }

  /** The target after the last message of a log; one that raises is skipped. */
  function LastSeen(skip: bool, log: seq<Message>, source: Store, target: Store): Store
    requires log != []
    decreases |log|, 0
  {
    var before := Pass(skip, log[..|log| - 1], source, target);
    var r := Replicated(skip, log[|log| - 1], source, before);
    if r.Ok? then r.target else before
  }

  // ---------------------------------------------------------------- what happens to one object

  datatype Touch = Puts | Deletes | Tags | Untags | Leaves

  function TouchOf(m: Message, at: (string, string)): Touch {
    if m.At() != at then Leaves
    else match m.op
      case PutObject => Puts
      case DeleteObject => Deletes
      case PutTagging => Tags
      case DeleteTagging => Untags
      case _ => Leaves
  }

  function TouchesOf(log: seq<Message>, at: (string, string)): (touches: seq<Touch>)
    ensures |touches| == |log|
  {
    if log == [] then []
    else TouchesOf(log[..|log| - 1], at) + [TouchOf(log[|log| - 1], at)]
  }

  /** The effect of one touch on an object of the target, given the source's object. */
  function Effect(skip: bool, source: Option<Object>, t: Touch, x: Option<Object>): Option<Object> {
    match t
    case Puts =>
      if source.None? || (skip && x.Some? && x.value.body == source.value.body) then x
      else Some(Object(source.value.body, []))
    case Deletes => None
    case Tags => if source.None? || x.None? then x else Some(x.value.(tags := source.value.tags))
    case Untags => if x.None? then x else Some(x.value.(tags := []))
    case Leaves => x
  }

  function Effects(skip: bool, source: Option<Object>, ts: seq<Touch>, x: Option<Object>): Option<Object> {
    if ts == [] then x
    else Effect(skip, source, ts[|ts| - 1], Effects(skip, source, ts[..|ts| - 1], x))
  }

  /** The last touch of the tags. */
  function LastTag(ts: seq<Touch>): (t: Touch)
    ensures t.Tags? || t.Untags? || t.Leaves?
  {
    if ts == [] then Leaves
    else if ts[|ts| - 1].Tags? || ts[|ts| - 1].Untags? then ts[|ts| - 1]
    else LastTag(ts[..|ts| - 1])
  }

  /** The last touch of the tags after the first put; after the last put if `renewed`. */
  function TagAfterPut(ts: seq<Touch>, renewed: bool): (t: Touch)
    ensures t.Tags? || t.Untags? || t.Leaves?
  {
    if ts == [] then Leaves
    else
      var front, last := ts[..|ts| - 1], ts[|ts| - 1];
      if (last.Tags? || last.Untags?) && Puts in front then last
      else if last.Puts? && renewed then Leaves
      else TagAfterPut(front, renewed)
  }

  /** Tags left by a last touch. */
  function Left(t: Touch, source: Tags, before: Tags): Tags {
    match t
    case Tags => source
    case Untags => []
    case _ => before
  }

  /** A log whose last tagging of an object is copied before the first put of it, and that neither
      deletes the object nor touches its tags later. */
  predicate TagsTooEarly(ts: seq<Touch>) {
    Deletes !in ts && Puts in ts && LastTag(ts).Tags? && TagAfterPut(ts, false).Leaves?
  }

  lemma {:induction false} EffectsAfterDelete(skip: bool, source: Option<Object>, ts: seq<Touch>,
                                              x: Option<Object>, y: Option<Object>)
    requires Deletes in ts
    ensures Effects(skip, source, ts, x) == Effects(skip, source, ts, y)
  {
    var n := |ts| - 1;
    assert ts == ts[..n] + [ts[n]];
    if !ts[n].Deletes? {
      EffectsAfterDelete(skip, source, ts[..n], x, y);
    }
  }

  /** Without a delete, the effect of a log on one object in closed form. */
  lemma {:induction false} EffectsClosed(skip: bool, source: Option<Object>, ts: seq<Touch>, x: Option<Object>)
    requires Deletes !in ts
    ensures Effects(skip, source, ts, x) ==
      if source.None? then
        (if x.None? then None
         else Some(Object(x.value.body, if Untags in ts then [] else x.value.tags)))
      else if Puts in ts && !(skip && x.Some? && x.value.body == source.value.body) then
        Some(Object(source.value.body, Left(TagAfterPut(ts, !skip), source.value.tags, [])))
      else if x.None? then None
      else Some(Object(x.value.body, Left(LastTag(ts), source.value.tags, x.value.tags)))
  {
    if ts != [] {
      var n := |ts| - 1;
      assert ts == ts[..n] + [ts[n]];
      EffectsClosed(skip, source, ts[..n], x);
      if Puts !in ts[..n] {
        NoPutNoTag(ts[..n], !skip);
      }
    }
  }

  lemma {:induction false} NoPutNoTag(ts: seq<Touch>, renewed: bool)
    requires Puts !in ts
    ensures TagAfterPut(ts, renewed).Leaves?
  {
    if ts != [] {
      NoPutNoTag(ts[..|ts| - 1], renewed);
    }
  }

  /** A touch of the tags after the first put is the last touch of the tags. */
  lemma {:induction false} TagAfterPutIsLast(ts: seq<Touch>)
    ensures TagAfterPut(ts, false).Leaves? || TagAfterPut(ts, false) == LastTag(ts)
  {
    if ts != [] {
      TagAfterPutIsLast(ts[..|ts| - 1]);
      if Puts !in ts[..|ts| - 1] {
        NoPutNoTag(ts[..|ts| - 1], false);
      }
    }
  }

  /** Repeating a log on one object changes nothing, unless the ETag shortcut meets tags that were
      copied too early. */
  lemma {:induction false} EffectsIdempotent(skip: bool, source: Option<Object>, ts: seq<Touch>, x: Option<Object>)
    requires !(skip && TagsTooEarly(ts))
    ensures var y := Effects(skip, source, ts, x); Effects(skip, source, ts, y) == y
  {
    var y := Effects(skip, source, ts, x);
    if Deletes in ts {
      EffectsAfterDelete(skip, source, ts, x, y);
    } else {
      EffectsClosed(skip, source, ts, x);
      EffectsClosed(skip, source, ts, y);
      TagAfterPutIsLast(ts);
    }
  }

  // ---------------------------------------------------------------- starting from nothing

  lemma {:induction false} EffectsSplit(skip: bool, source: Option<Object>, a: seq<Touch>, b: seq<Touch>,
                                        x: Option<Object>)
    ensures Effects(skip, source, a + b, x) == Effects(skip, source, b, Effects(skip, source, a, x))
  {
    if b == [] {
      assert a + b == a;
    } else {
      var n := |b| - 1;
      EffectsSplit(skip, source, a, b[..n], x);
      assert (a + b)[..|a + b| - 1] == a + b[..n];
    }
  }

  /** Whether the object is there after the touches: put last if the source has it, or there before
      and not deleted. */
  predicate Stays(sourced: bool, ts: seq<Touch>, before: bool) {
    if ts == [] then before
    else match ts[|ts| - 1]
      case Deletes => false
      case Puts => sourced || Stays(sourced, ts[..|ts| - 1], before)
      case _ => Stays(sourced, ts[..|ts| - 1], before)
  }

  lemma {:induction false} EffectsPresence(skip: bool, source: Option<Object>, ts: seq<Touch>, x: Option<Object>)
    ensures Effects(skip, source, ts, x).Some? <==> Stays(source.Some?, ts, x.Some?)
  {
    if ts != [] {
      EffectsPresence(skip, source, ts[..|ts| - 1], x);
    }
  }

  lemma {:induction false} StaysGrows(sourced: bool, ts: seq<Touch>, before: bool)
    requires Stays(sourced, ts, before)
    ensures Stays(true, ts, before) && Stays(sourced, ts, true)
  {
    if ts != [] && !ts[|ts| - 1].Puts? {
      StaysGrows(sourced, ts[..|ts| - 1], before);
    } else if ts != [] && Stays(sourced, ts[..|ts| - 1], before) {
      StaysGrows(sourced, ts[..|ts| - 1], before);
    }
  }

  lemma {:induction false} StaysSplit(sourced: bool, a: seq<Touch>, b: seq<Touch>, before: bool)
    ensures Stays(sourced, a + b, before) == Stays(sourced, b, Stays(sourced, a, before))
  {
    if b == [] {
      assert a + b == a;
    } else {
      var n := |b| - 1;
      StaysSplit(sourced, a, b[..n], before);
      assert (a + b)[..|a + b| - 1] == a + b[..n];
    }
  }

  lemma {:induction false} UndeletedStays(sourced: bool, ts: seq<Touch>)
    requires Deletes !in ts
    ensures Stays(sourced, ts, true)
  {
    if ts != [] {
      assert ts[|ts| - 1] in ts;
      UndeletedStays(sourced, ts[..|ts| - 1]);
    }
  }

  /** Whether a copy of the source's object without its tags has them after the touches, when puts
      are skipped. */
  predicate EndsTagged(ts: seq<Touch>) {
    if ts == [] then false
    else match ts[|ts| - 1]
      case Tags => Stays(true, ts[..|ts| - 1], true)
      case Untags => false
      case Deletes => false
      case _ => EndsTagged(ts[..|ts| - 1])
  }

  lemma {:induction false} TaggedCopy(source: Object, ts: seq<Touch>)
    ensures Effects(true, Some(source), ts, Some(Object(source.body, []))) ==
            if !Stays(true, ts, true) then None
            else Some(Object(source.body, if EndsTagged(ts) then source.tags else []))
    ensures EndsTagged(ts) ==> Stays(true, ts, true)
  {
    if ts != [] {
      TaggedCopy(source, ts[..|ts| - 1]);
    }
  }

  /** The log leaves another object when it is replayed on what its second part made of nothing.
      Either the object is only put in the first part and the second lets it be; or, with the
      shortcut on, the second part puts it and leaves it without tags, which a replay adds. */
  predicate Stranded(skip: bool, first: seq<Touch>, second: seq<Touch>) {
    && Deletes !in second
    && if Puts !in second then Stays(true, first, false)
       else
         && skip && TagAfterPut(second, false).Leaves? && Stays(true, first, true)
         && (LastTag(second).Tags? || (LastTag(second).Leaves? && EndsTagged(first)))
  }

  lemma {:induction false} NothingFromNothing(skip: bool, ts: seq<Touch>)
    ensures Effects(skip, None, ts, None) == None
  {
    if ts != [] {
      NothingFromNothing(skip, ts[..|ts| - 1]);
    }
  }

  lemma {:induction false} BodyStays(skip: bool, source: Object, ts: seq<Touch>, x: Option<Object>)
    requires x.Some? ==> x.value.body == source.body
    ensures var y := Effects(skip, Some(source), ts, x); y.Some? ==> y.value.body == source.body
  {
    if ts != [] {
      BodyStays(skip, source, ts[..|ts| - 1], x);
    }
  }

  /** Replaying on what the second part made of nothing gives the same again, unless stranded. */
  lemma {:induction false} FromNothing(skip: bool, source: Option<Object>, first: seq<Touch>, second: seq<Touch>)
    requires source.None? || !Stranded(skip, first, second)
    ensures var y := Effects(skip, source, second, None); Effects(skip, source, first + second, y) == y
  {
    var y := Effects(skip, source, second, None);
    var z := Effects(skip, source, first, y);
    EffectsSplit(skip, source, first, second, y);
    if source.None? {
      NothingFromNothing(skip, second);
      NothingFromNothing(skip, first);
    } else if Deletes in second {
      EffectsAfterDelete(skip, source, second, None, z);
    } else {
      EffectsClosed(skip, source, second, None);
      EffectsClosed(skip, source, second, z);
      if Puts !in second {
        EffectsPresence(skip, source, first, None);
      } else if skip {
        BodyStays(skip, source.value, first, y);
        EffectsPresence(skip, source, first, y);
        TagAfterPutIsLast(second);
        TaggedCopy(source.value, first);
      }
    }
  }

  /** A stranded object shows with any source whose object has tags. */
  lemma {:induction false} StrandedShows(skip: bool, source: Object, first: seq<Touch>, second: seq<Touch>)
    requires Stranded(skip, first, second) && source.tags != []
    ensures var y := Effects(skip, Some(source), second, None);
            Effects(skip, Some(source), first + second, y) != y
  {
    var y := Effects(skip, Some(source), second, None);
    var z := Effects(skip, Some(source), first, y);
    EffectsSplit(skip, Some(source), first, second, y);
    EffectsClosed(skip, Some(source), second, None);
    EffectsClosed(skip, Some(source), second, z);
    if Puts !in second {
      EffectsPresence(skip, Some(source), first, None);
    } else {
      BodyStays(skip, source, first, y);
      TaggedCopy(source, first);
      EffectsPresence(skip, Some(source), first, y);
    }
  }
}
