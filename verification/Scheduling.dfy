/**
 Scheduling replication: what the batch manager and the per-backend manager publish for one client
 operation, and that the two ask for the same tasks.
 */
module Scheduling {
  import opened Common

  datatype Operation =
    | CreateBucket | DeleteBucket | HeadBucket | ListBuckets | DeleteObjects | ListObjects
    | GetBucketLifecycle | PutBucketLifecycle | DeleteBucketLifecycle
    | GetBucketPolicy | PutBucketPolicy | DeleteBucketPolicy
    | PutObject | GetObject | DeleteObject | HeadObject | PostObject | CopyObject
    | PutObjectTagging | GetObjectTagging | DeleteObjectTagging
    | CreateMultipartUpload | UploadPart | CompleteMultipartUpload | AbortMultipartUpload
    | ListObjectsV2

  type Key = Option<string>

  /** The request: its bucket, its object key, the keys of a multi-delete and all other fields. */
  datatype Params = Params(bucket: string, key: Key, delete: seq<string>, fields: map<string, string>)

  /** The response: the keys a multi-delete reports as deleted and all other fields. */
  datatype Response = Response(deleted: seq<string>, fields: map<string, string>)

  datatype Message =
    Message(op: Operation, bucket: string, key: Key, source: string, targets: seq<string>,
            metadata: map<string, string>)

  datatype Sent = Sent(topic: string, partitionKey: string, message: Message)

  /** One replication of one key to one backend. */
  datatype Task =
    Task(op: Operation, bucket: string, key: Key, source: string, target: string,
         metadata: map<string, string>)

  function MapOperation(op: Operation): Operation {
    match op
    case CompleteMultipartUpload => PutObject
    case CopyObject => PutObject
    case DeleteObjects => DeleteObject
    case _ => op
  }

  predicate BucketLevel(op: Operation) {
    op in {CreateBucket, DeleteBucket, PutBucketLifecycle, DeleteBucketLifecycle,
           PutBucketPolicy, DeleteBucketPolicy}
  }

  function Keys(names: seq<string>): seq<Key> {
    seq(|names|, i requires 0 <= i < |names| => Some(names[i]))
  }

  function ExtractKeys(op: Operation, params: Params, response: Response): seq<Key> {
    if op == DeleteObjects then
      if response.deleted != [] then Keys(response.deleted) else Keys(params.delete)
    else if BucketLevel(op) then [None]
    else if params.key.None? || params.key.value == "" then []
    else [params.key]
  }

  const FIELDS: seq<string> :=
    ["ETag", "ContentLength", "ContentType", "ContentEncoding", "CacheControl", "ContentDisposition",
     "ContentLanguage", "Expires", "Metadata"]

  /** The carried fields, the response's value before the request's. */
  function MetadataOf(names: seq<string>, asked: map<string, string>, answered: map<string, string>): map<string, string>
  {
    map f | f in names && (f in answered || f in asked) :: if f in answered then answered[f] else asked[f]
  }

  lemma {:induction false} OneMoreField(names: seq<string>, f: string, asked: map<string, string>, answered: map<string, string>)
    ensures MetadataOf(names + [f], asked, answered) ==
            var before := MetadataOf(names, asked, answered);
            if f in answered then before[f := answered[f]]
            else if f in asked then before[f := asked[f]]
            else before
  {
  }

  method CollectFields(names: seq<string>, asked: map<string, string>, answered: map<string, string>)
      returns (metadata: map<string, string>)
    ensures metadata == MetadataOf(names, asked, answered)
  {
    metadata := map[];
    for i := 0 to |names|
      invariant metadata == MetadataOf(names[..i], asked, answered)
    {
      var f := names[i];
      assert names[..i + 1] == names[..i] + [f];
      OneMoreField(names[..i], f, asked, answered);
      if f in answered {
        metadata := metadata[f := answered[f]];
      } else if f in asked {
        metadata := metadata[f := asked[f]];
      }
    }
    assert names[..|names|] == names;
  }

  // ---------------------------------------------------------------- what is published

  function PartitionKey(bucket: string, key: Key): string {
    if key.None? || key.value == "" then bucket else bucket + "/" + key.value
  }

  /** Everything the messages of one operation share. */
  datatype Header = Header(topic: string, op: Operation, bucket: string, source: string,
                           metadata: map<string, string>)

  function HeaderOf(topic: string, op: Operation, params: Params, response: Response, source: string): Header {
    Header(topic, MapOperation(op), params.bucket, source,
           MetadataOf(FIELDS, params.fields, response.fields))
  }

  function MessageOf(h: Header, key: Key, targets: seq<string>): Message {
    Message(h.op, h.bucket, key, h.source, targets, h.metadata)
  }

  function BatchSends(h: Header, keys: seq<Key>, targets: seq<string>): seq<Sent> {
    if keys == [] then []
    else
      var n := |keys| - 1;
      BatchSends(h, keys[..n], targets)
      + [Sent(h.topic, PartitionKey(h.bucket, keys[n]), MessageOf(h, keys[n], targets))]
  }

  function SendsForKey(h: Header, key: Key, targets: seq<string>): seq<Sent> {
    if targets == [] then []
    else
      var n := |targets| - 1;
      SendsForKey(h, key, targets[..n])
      + [Sent(h.topic + "." + targets[n], PartitionKey(h.bucket, key), MessageOf(h, key, [targets[n]]))]
  }

  function PerBackendSends(h: Header, keys: seq<Key>, targets: seq<string>): seq<Sent> {
    if keys == [] then []
    else
      var n := |keys| - 1;
      PerBackendSends(h, keys[..n], targets) + SendsForKey(h, keys[n], targets)
  }

  class ReplicationPublisher {
    const topic: string
    var sent: seq<Sent>

    constructor (topic: string)
      ensures this.topic == topic && sent == []
    {
      this.topic, sent := topic, [];
    }

    method Publish(message: Message, to: Option<string>)
      modifies this
      ensures sent == old(sent) + [Sent(if to.Some? && to.value != "" then to.value else topic,
                                        PartitionKey(message.bucket, message.key), message)]
    {
      var target := if to.Some? && to.value != "" then to.value else topic;
      sent := sent + [Sent(target, PartitionKey(message.bucket, message.key), message)];
    }
  }

  class BatchReplicationManager {
    const publisher: ReplicationPublisher

    constructor (publisher: ReplicationPublisher)
      ensures this.publisher == publisher
    {
      this.publisher := publisher;
    }

    method ScheduleReplication(op: Operation, params: Params, response: Response, source: string,
                               targets: seq<string>)
      modifies publisher
      ensures var h := HeaderOf(publisher.topic, op, params, response, source);
              publisher.sent == old(publisher.sent) +
                if targets == [] then [] else BatchSends(h, ExtractKeys(op, params, response), targets)
    {
      if targets == [] {
        return;
      }
      var operation := MapOperation(op);
      var keys := ExtractKeys(op, params, response);
      var metadata := CollectFields(FIELDS, params.fields, response.fields);
      ghost var h := HeaderOf(publisher.topic, op, params, response, source);
      ghost var before := publisher.sent;
      for i := 0 to |keys|
        invariant publisher.sent == before + BatchSends(h, keys[..i], targets)
      {
        assert keys[..i + 1][..i] == keys[..i];
        publisher.Publish(Message(operation, params.bucket, keys[i], source, targets, metadata), None);
      }
      assert keys[..|keys|] == keys;
    }
  }

  class PerBackendReplicationManager {
    const publisher: ReplicationPublisher

    constructor (publisher: ReplicationPublisher)
      ensures this.publisher == publisher
    {
      this.publisher := publisher;
    }

    /** Publish the messages of one key, one for each target. */
    method PublishKey(h: Header, key: Key, targets: seq<string>)
      requires h.topic == publisher.topic
      modifies publisher
      ensures publisher.sent == old(publisher.sent) + SendsForKey(h, key, targets)
    {
      ghost var before := publisher.sent;
      for j := 0 to |targets|
        invariant publisher.sent == before + SendsForKey(h, key, targets[..j])
      {
        assert targets[..j + 1][..j] == targets[..j];
        publisher.Publish(Message(h.op, h.bucket, key, h.source, [targets[j]], h.metadata),
                          Some(publisher.topic + "." + targets[j]));
      }
      assert targets[..|targets|] == targets;
    }

    method ScheduleReplication(op: Operation, params: Params, response: Response, source: string,
                               targets: seq<string>)
      modifies publisher
      ensures var h := HeaderOf(publisher.topic, op, params, response, source);
              publisher.sent == old(publisher.sent) +
                if targets == [] then [] else PerBackendSends(h, ExtractKeys(op, params, response), targets)
    {
      if targets == [] {
        return;
      }
      var keys := ExtractKeys(op, params, response);
      var metadata := CollectFields(FIELDS, params.fields, response.fields);
      var h := Header(publisher.topic, MapOperation(op), params.bucket, source, metadata);
      ghost var before := publisher.sent;
      for i := 0 to |keys|
        invariant publisher.sent == before + PerBackendSends(h, keys[..i], targets)
      {
        assert keys[..i + 1][..i] == keys[..i];
        PublishKey(h, keys[i], targets);
        Regroup(before, PerBackendSends(h, keys[..i], targets), SendsForKey(h, keys[i], targets));
      }
      assert keys[..|keys|] == keys;
    }
  }

  // ---------------------------------------------------------------- the tasks they ask for

  function Spread(m: Message, targets: seq<string>): seq<Task> {
    if targets == [] then []
    else
      var n := |targets| - 1;
      Spread(m, targets[..n]) + [Task(m.op, m.bucket, m.key, m.source, targets[n], m.metadata)]
  }

  /** The tasks a published sequence asks the workers for, in order. */
  function TasksOf(sent: seq<Sent>): seq<Task> {
    if sent == [] then []
    else
      var n := |sent| - 1;
      TasksOf(sent[..n]) + Spread(sent[n].message, sent[n].message.targets)
  }

  function TaskOf(h: Header, key: Key, target: string): Task {
    Task(h.op, h.bucket, key, h.source, target, h.metadata)
  }

  lemma {:induction false} TasksOfAppend(sent: seq<Sent>, s: Sent)
    ensures TasksOf(sent + [s]) == TasksOf(sent) + Spread(s.message, s.message.targets)
  {
    assert (sent + [s])[..|sent|] == sent;
  }

  lemma {:induction false} SnocSplit<T>(a: seq<T>, b: seq<T>)
    requires b != []
    ensures b == b[..|b| - 1] + [b[|b| - 1]]
    ensures a + b == (a + b[..|b| - 1]) + [b[|b| - 1]]
  {
  }

  lemma {:induction false} TasksOfSplit(a: seq<Sent>, b: seq<Sent>)
    ensures TasksOf(a + b) == TasksOf(a) + TasksOf(b)
  {
    if b == [] {
      Regroup(a, b, b);
      Regroup(TasksOf(a), TasksOf(b), []);
    } else {
      var front, last := b[..|b| - 1], b[|b| - 1];
      var row := Spread(last.message, last.message.targets);
      SnocSplit(a, b);
      TasksOfSplit(a, front);
      calc {
        TasksOf(a + b);
        { TasksOfAppend(a + front, last); }
        TasksOf(a + front) + row;
        (TasksOf(a) + TasksOf(front)) + row;
        { Regroup(TasksOf(a), TasksOf(front), row); }
        TasksOf(a) + (TasksOf(front) + row);
        { TasksOfAppend(front, last); }
        TasksOf(a) + TasksOf(b);
      }
    }
  }

  lemma {:induction false} SpreadOne(m: Message, target: string)
    ensures Spread(m, [target]) == [Task(m.op, m.bucket, m.key, m.source, target, m.metadata)]
  {
    assert [target][..0] == [];
  }

  lemma {:induction false} OneKey(h: Header, key: Key, targets: seq<string>, m: Message)
    requires m == MessageOf(h, key, m.targets)
    ensures TasksOf(SendsForKey(h, key, targets)) == Spread(m, targets)
  {
    if targets != [] {
      var n := |targets| - 1;
      OneKey(h, key, targets[..n], m);
      var last := Sent(h.topic + "." + targets[n], PartitionKey(h.bucket, key), MessageOf(h, key, [targets[n]]));
      TasksOfAppend(SendsForKey(h, key, targets[..n]), last);
      SpreadOne(last.message, targets[n]);
    }
  }

  /** Both managers ask for the same tasks in the same order. */
  lemma {:induction false} SameTasks(h: Header, keys: seq<Key>, targets: seq<string>)
    ensures TasksOf(BatchSends(h, keys, targets)) == TasksOf(PerBackendSends(h, keys, targets))
  {
    if keys != [] {
      var n := |keys| - 1;
      SameTasks(h, keys[..n], targets);
      var m := MessageOf(h, keys[n], targets);
      TasksOfAppend(BatchSends(h, keys[..n], targets), Sent(h.topic, PartitionKey(h.bucket, keys[n]), m));
      TasksOfSplit(PerBackendSends(h, keys[..n], targets), SendsForKey(h, keys[n], targets));
      OneKey(h, keys[n], targets, m);
    }
  }

  lemma {:induction false} SpreadAt(m: Message, targets: seq<string>)
    ensures |Spread(m, targets)| == |targets|
    ensures forall j :: 0 <= j < |targets| ==>
              Spread(m, targets)[j] == Task(m.op, m.bucket, m.key, m.source, targets[j], m.metadata)
  {
    if targets != [] {
      SpreadAt(m, targets[..|targets| - 1]);
    }
  }

  /** Indexing a table of `n + 1` rows laid end to end. */
  lemma {:induction false} RowAt<T>(front: seq<T>, row: seq<T>, n: nat, i: nat, j: nat)
    requires |front| == n * |row| && i <= n && j < |row|
    ensures |front + row| == (n + 1) * |row|
    ensures 0 <= i * |row| + j < (n + 1) * |row|
    ensures if i == n then (front + row)[i * |row| + j] == row[j]
            else i * |row| + j < |front| && (front + row)[i * |row| + j] == front[i * |row| + j]
  {
    if i < n {
      assert (i + 1) * |row| <= n * |row|;
    }
  }

  lemma {:induction false} BatchSendsLast(h: Header, keys: seq<Key>, targets: seq<string>)
    requires keys != []
    ensures var n := |keys| - 1;
            TasksOf(BatchSends(h, keys, targets))
            == TasksOf(BatchSends(h, keys[..n], targets)) + Spread(MessageOf(h, keys[n], targets), targets)
  {
    var n := |keys| - 1;
    TasksOfAppend(BatchSends(h, keys[..n], targets),
                  Sent(h.topic, PartitionKey(h.bucket, keys[n]), MessageOf(h, keys[n], targets)));
  }

  lemma {:induction false} BatchSendsSize(h: Header, keys: seq<Key>, targets: seq<string>)
    ensures |TasksOf(BatchSends(h, keys, targets))| == |keys| * |targets|
  {
    if keys != [] {
      var n := |keys| - 1;
      BatchSendsSize(h, keys[..n], targets);
      BatchSendsLast(h, keys, targets);
      SpreadAt(MessageOf(h, keys[n], targets), targets);
    }
  }

  /** The tasks are one for each key position and target, key after key. */
  lemma {:induction false} KeyMajor(h: Header, keys: seq<Key>, targets: seq<string>, i: nat, j: nat)
    requires i < |keys| && j < |targets|
    ensures |TasksOf(BatchSends(h, keys, targets))| == |keys| * |targets|
    ensures 0 <= i * |targets| + j < |keys| * |targets|
    ensures TasksOf(BatchSends(h, keys, targets))[i * |targets| + j] == TaskOf(h, keys[i], targets[j])
  {
    var n := |keys| - 1;
    var m := MessageOf(h, keys[n], targets);
    var front, row := TasksOf(BatchSends(h, keys[..n], targets)), Spread(m, targets);
    BatchSendsLast(h, keys, targets);
    BatchSendsSize(h, keys[..n], targets);
    SpreadAt(m, targets);
    RowAt(front, row, n, i, j);
    if i < n {
      KeyMajor(h, keys[..n], targets, i, j);
    }
  }

  // ---------------------------------------------------------------- what the messages say

  lemma {:induction false} BatchSendAt(h: Header, keys: seq<Key>, targets: seq<string>, i: nat)
    requires i < |keys|
    ensures |BatchSends(h, keys, targets)| == |keys|
    ensures BatchSends(h, keys, targets)[i]
            == Sent(h.topic, PartitionKey(h.bucket, keys[i]), Message(h.op, h.bucket, keys[i], h.source, targets, h.metadata))
  {
    var n := |keys| - 1;
    if n > 0 {
      BatchSendAt(h, keys[..n], targets, if i < n then i else 0);
    }
  }

  /** How many messages an operation asks for: one for each key of a multi-delete, that is each deletion
      reported or else each one requested; one for a bucket operation; one for any other that names a key. */
  lemma {:induction false} HowManyKeys(op: Operation, params: Params, response: Response)
    ensures |ExtractKeys(op, params, response)| ==
      match op
      case DeleteObjects => if response.deleted == [] then |params.delete| else |response.deleted|
      case CreateBucket => 1
      case DeleteBucket => 1
      case PutBucketLifecycle => 1
      case DeleteBucketLifecycle => 1
      case PutBucketPolicy => 1
      case DeleteBucketPolicy => 1
      case _ => if params.key == None || params.key == Some("") then 0 else 1
  {
  }

  /** What message number `i` says: completing a multipart upload and copying an object are replicated as
      puts, a multi-delete as deletions of its keys, a bucket operation without a key and everything else
      as it is. */
  lemma {:induction false} MessageSays(topic: string, op: Operation, params: Params, response: Response, source: string,
                                       targets: seq<string>, i: nat)
    requires i < |ExtractKeys(op, params, response)|
    ensures var keys := ExtractKeys(op, params, response);
            var sent := BatchSends(HeaderOf(topic, op, params, response, source), keys, targets);
            && |sent| == |keys| && sent[i].topic == topic
            && sent[i].partitionKey == PartitionKey(params.bucket, sent[i].message.key)
            && var m := sent[i].message;
               && m.bucket == params.bucket && m.source == source && m.targets == targets
               && match op
                  case CompleteMultipartUpload => m.op == PutObject && m.key == params.key
                  case CopyObject => m.op == PutObject && m.key == params.key
                  case DeleteObjects =>
                    && m.op == DeleteObject
                    && m.key == Some(if response.deleted == [] then params.delete[i] else response.deleted[i])
                  case CreateBucket => m.op == op && m.key == None
                  case DeleteBucket => m.op == op && m.key == None
                  case PutBucketLifecycle => m.op == op && m.key == None
                  case DeleteBucketLifecycle => m.op == op && m.key == None
                  case PutBucketPolicy => m.op == op && m.key == None
                  case DeleteBucketPolicy => m.op == op && m.key == None
                  case _ => m.op == op && m.key == params.key
  {
    HowManyKeys(op, params, response);
    BatchSendAt(HeaderOf(topic, op, params, response, source), ExtractKeys(op, params, response), targets, i);
  }

  /** Which fields a message carries, and the response's value goes first. */
  lemma {:induction false} MessageCarries(topic: string, op: Operation, params: Params, response: Response, source: string,
                                          f: string)
    ensures Lookup(HeaderOf(topic, op, params, response, source).metadata, f) ==
            if f in {"ETag", "ContentLength", "ContentType", "ContentEncoding", "CacheControl", "ContentDisposition",
                     "ContentLanguage", "Expires", "Metadata"}
            then (if f in response.fields then Some(response.fields[f]) else Lookup(params.fields, f))
            else None
  {
    FieldsAre(f);
  }

  lemma {:induction false} FieldsAre(f: string)
    ensures f in FIELDS <==>
            f in {"ETag", "ContentLength", "ContentType", "ContentEncoding", "CacheControl", "ContentDisposition",
                  "ContentLanguage", "Expires", "Metadata"}
  {
    assert FIELDS[0] == "ETag" && FIELDS[1] == "ContentLength" && FIELDS[2] == "ContentType";
    assert FIELDS[3] == "ContentEncoding" && FIELDS[4] == "CacheControl" && FIELDS[5] == "ContentDisposition";
    assert FIELDS[6] == "ContentLanguage" && FIELDS[7] == "Expires" && FIELDS[8] == "Metadata";
  }

  // ---------------------------------------------------------------- routing

  function OnTopic(sent: seq<Sent>, topic: string): seq<Sent> {
    if sent == [] then []
    else
      var n := |sent| - 1;
      OnTopic(sent[..n], topic) + if sent[n].topic == topic then [sent[n]] else []
  }

  function ForTarget(tasks: seq<Task>, target: string): seq<Task> {
    if tasks == [] then []
    else
      var n := |tasks| - 1;
      ForTarget(tasks[..n], target) + if tasks[n].target == target then [tasks[n]] else []
  }

  /** Every message is for one target and goes to that target's topic. */
  predicate Routed(topic: string, sent: seq<Sent>) {
    forall i :: 0 <= i < |sent| ==>
      |sent[i].message.targets| == 1 && sent[i].topic == topic + "." + sent[i].message.targets[0]
  }

  lemma {:induction false} SendsForKeyRouted(h: Header, key: Key, targets: seq<string>)
    ensures Routed(h.topic, SendsForKey(h, key, targets))
  {
    if targets != [] {
      SendsForKeyRouted(h, key, targets[..|targets| - 1]);
    }
  }

  lemma {:induction false} PerBackendRouted(h: Header, keys: seq<Key>, targets: seq<string>)
    ensures Routed(h.topic, PerBackendSends(h, keys, targets))
  {
    if keys != [] {
      PerBackendRouted(h, keys[..|keys| - 1], targets);
      SendsForKeyRouted(h, keys[|keys| - 1], targets);
    }
  }

  lemma {:induction false} TopicsDiffer(topic: string, t1: string, t2: string)
    ensures topic + "." + t1 == topic + "." + t2 <==> t1 == t2
  {
    assert (topic + "." + t1)[|topic| + 1..] == t1 && (topic + "." + t2)[|topic| + 1..] == t2;
  }

  lemma {:induction false} ForTargetAppend(tasks: seq<Task>, x: Task, target: string)
    ensures ForTarget(tasks + [x], target)
            == if x.target == target then ForTarget(tasks, target) + [x] else ForTarget(tasks, target)
  {
    assert (tasks + [x])[..|tasks|] == tasks;
  }

  lemma {:induction false} OnTopicAppend(sent: seq<Sent>, x: Sent, topic: string)
    ensures OnTopic(sent + [x], topic) == if x.topic == topic then OnTopic(sent, topic) + [x] else OnTopic(sent, topic)
  {
    assert (sent + [x])[..|sent|] == sent;
  }

  lemma {:induction false} RoutedTopic(topic: string, sent: seq<Sent>, target: string)
    requires Routed(topic, sent)
    ensures TasksOf(OnTopic(sent, topic + "." + target)) == ForTarget(TasksOf(sent), target)
  {
    if sent != [] {
      var front, last := sent[..|sent| - 1], sent[|sent| - 1];
      var own, task := topic + "." + target, Spread(last.message, last.message.targets);
      RoutedTopic(topic, front, target);
      assert last.message.targets == [last.message.targets[0]];
      TopicsDiffer(topic, target, last.message.targets[0]);
      SpreadOne(last.message, last.message.targets[0]);
      SnocSplit([], sent);
      OnTopicAppend(front, last, own);
      TasksOfAppend(front, last);
      TasksOfAppend(OnTopic(front, own), last);
      ForTargetAppend(TasksOf(front), task[0], target);
      assert task == [task[0]];
    }
  }

  /** A target's own topic carries, in order, exactly the tasks batch mode has for that target. */
  lemma {:induction false} TopicCarriesTarget(h: Header, keys: seq<Key>, targets: seq<string>, target: string)
    ensures TasksOf(OnTopic(PerBackendSends(h, keys, targets), h.topic + "." + target))
            == ForTarget(TasksOf(BatchSends(h, keys, targets)), target)
  {
    PerBackendRouted(h, keys, targets);
    RoutedTopic(h.topic, PerBackendSends(h, keys, targets), target);
    SameTasks(h, keys, targets);
  }

  // ---------------------------------------------------------------- multi-delete

  /** What deleting the names one request at a time publishes in batch mode. */
  function SingleDeletes(topic: string, params: Params, response: Response, source: string,
                         names: seq<string>, targets: seq<string>): seq<Sent>
  {
    if names == [] then []
    else
      var n := |names| - 1;
      var one := params.(key := Some(names[n]));
      SingleDeletes(topic, params, response, source, names[..n], targets)
      + BatchSends(HeaderOf(topic, DeleteObject, one, response, source),
                   ExtractKeys(DeleteObject, one, response), targets)
  }

  lemma {:induction false} OneSend(h: Header, key: Key, targets: seq<string>)
    ensures BatchSends(h, [key], targets)
            == [Sent(h.topic, PartitionKey(h.bucket, key), MessageOf(h, key, targets))]
  {
    assert [key][..0] == [];
  }

  lemma {:induction false} SingleDeletesMatch(topic: string, params: Params, response: Response, source: string,
                                              names: seq<string>, targets: seq<string>)
    ensures var h := HeaderOf(topic, DeleteObjects, params, response, source);
            var singles := SingleDeletes(topic, params, response, source, names, targets);
            && |BatchSends(h, Keys(names), targets)| == |names|
            && (if "" in names then |singles| < |names| else singles == BatchSends(h, Keys(names), targets))
  {
    if names != [] {
      var n := |names| - 1;
      SingleDeletesMatch(topic, params, response, source, names[..n], targets);
      assert Keys(names)[..n] == Keys(names[..n]);
      assert names == names[..n] + [names[n]];
      var one := params.(key := Some(names[n]));
      OneSend(HeaderOf(topic, DeleteObject, one, response, source), Some(names[n]), targets);
    }
  }

  /** A multi-delete publishes exactly what its deletions would publish one by one, unless it reports
      an empty key, which a single deletion does not replicate. */
  lemma {:induction false} MultiDelete(topic: string, params: Params, response: Response, source: string, targets: seq<string>)
    requires response.deleted != []
    ensures var h := HeaderOf(topic, DeleteObjects, params, response, source);
            BatchSends(h, ExtractKeys(DeleteObjects, params, response), targets)
            == SingleDeletes(topic, params, response, source, response.deleted, targets)
            <==> "" !in response.deleted
  {
    SingleDeletesMatch(topic, params, response, source, response.deleted, targets);
  }

  /** A deletion reported for the empty key. */
  lemma {:induction false} EmptyKeyExample()
    ensures var params, response := Params("b", None, [], map[]), Response([""], map[]);
            var h := HeaderOf("replication", DeleteObjects, params, response, "s");
            && |BatchSends(h, ExtractKeys(DeleteObjects, params, response), ["t"])| == 1
            && SingleDeletes("replication", params, response, "s", response.deleted, ["t"]) == []
  {
    var params, response := Params("b", None, [], map[]), Response([""], map[]);
    SingleDeletesMatch("replication", params, response, "s", [""], ["t"]);
  }

  // ---------------------------------------------------------------- ordering per object

  /** The text before the first slash. */
  function BeforeSlash(s: string): string {
    if s == "" || s[0] == '/' then "" else [s[0]] + BeforeSlash(s[1..])
  }

  lemma {:induction false} BeforeSlashIs(bucket: string, rest: string)
    requires '/' !in bucket && (rest == "" || rest[0] == '/')
    ensures BeforeSlash(bucket + rest) == bucket
  {
    if bucket == "" {
      assert bucket + rest == rest;
    } else {
      BeforeSlashIs(bucket[1..], rest);
      assert (bucket + rest)[1..] == bucket[1..] + rest;
    }
  }

  function KeySuffix(key: Key): string {
    if key.None? || key.value == "" then "" else "/" + key.value
  }

  lemma {:induction false} KeySuffixIff(k1: Key, k2: Key)
    ensures KeySuffix(k1) == KeySuffix(k2) <==>
            if k1.None? || k1.value == "" then k2.None? || k2.value == "" else k1 == k2
  {
    assert KeySuffix(k1) != "" ==> KeySuffix(k1)[1..] == k1.value;
    assert KeySuffix(k2) != "" ==> KeySuffix(k2)[1..] == k2.value;
  }

  lemma {:induction false} PartitionKeyParts(bucket: string, key: Key)
    requires '/' !in bucket
    ensures PartitionKey(bucket, key) == bucket + KeySuffix(key)
    ensures BeforeSlash(PartitionKey(bucket, key)) == bucket
    ensures PartitionKey(bucket, key)[|bucket|..] == KeySuffix(key)
  {
    assert PartitionKey(bucket, key) == bucket + KeySuffix(key);
    BeforeSlashIs(bucket, KeySuffix(key));
  }

  /** Two messages share a partition key exactly when they concern the same object, or the same
      bucket itself, for bucket names without a slash. */
  lemma {:induction false} PartitionKeyIff(b1: string, k1: Key, b2: string, k2: Key)
    requires '/' !in b1 && '/' !in b2
    ensures PartitionKey(b1, k1) == PartitionKey(b2, k2) <==>
            && b1 == b2
            && (if k1.None? || k1.value == "" then k2.None? || k2.value == "" else k1 == k2)
  {
    PartitionKeyParts(b1, k1);
    PartitionKeyParts(b2, k2);
    KeySuffixIff(k1, k2);
  }
}
