/**
 Multipart session stores: the in-memory map, and the Valkey store that keeps each session as a
 serialised payload under a prefixed key.  On every sequential run without expiry they answer
 alike.
 */
module SessionStore {
  import opened Common
  import Decimal

  datatype Session = Session(
    bucket: string,
    key: string,
    uploadId: string,
    backendUploadIds: map<string, string>,
    partEtags: map<int, map<string, string>>)

  /** A JSON document holding a session: object keys are strings. */
  datatype Payload = Payload(
    bucket: string,
    key: string,
    uploadId: string,
    backendUploadIds: map<string, string>,
    partEtags: map<string, map<string, string>>)

  datatype Op =
    | CreateSession(bucket: string, key: string, id: string)
    | GetSession(id: string)
    | SetBackendUploadIds(id: string, ids: map<string, string>)
    | RecordPartEtags(id: string, part: int, etags: map<string, string>)
    | DeleteSession(id: string)

  datatype Reply = Found(session: Session) | Nothing | Done | UnknownSession

  function NewSession(bucket: string, key: string, id: string): Session {
    Session(bucket, key, id, map[], map[])
  }

  // ---------------------------------------------------------------- in memory

  type Sessions = map<string, Session>

  function MemoryDo(m: Sessions, op: Op): (Sessions, Reply) {
    match op
    case CreateSession(bucket, key, id) =>
      var session := NewSession(bucket, key, id);
      (m[id := session], Found(session))
    case GetSession(id) => (m, if id in m then Found(m[id]) else Nothing)
    case SetBackendUploadIds(id, ids) =>
      if id !in m then (m, UnknownSession)
      else (m[id := m[id].(backendUploadIds := ids)], Done)
    case RecordPartEtags(id, part, etags) =>
      if id !in m then (m, UnknownSession)
      else (m[id := m[id].(partEtags := m[id].partEtags[part := etags])], Done)
    case DeleteSession(id) => (m - {id}, Done)
  }

  // ---------------------------------------------------------------- what a session is

  function MemoryAfter(ops: seq<Op>): Sessions {
    if ops == [] then map[] else MemoryDo(MemoryAfter(ops[..|ops| - 1]), ops[|ops| - 1]).0
  }

  /** The last creation of the session, unless it was deleted since. */
  function CreatedBy(ops: seq<Op>, id: string): Option<Op> {
    if ops == [] then None
    else
      var last := ops[|ops| - 1];
      if last.id == id && last.CreateSession? then Some(last)
      else if last.id == id && last.DeleteSession? then None
      else CreatedBy(ops[..|ops| - 1], id)
  }

  /** The upload ids set last since the last creation. */
  function IdsSet(ops: seq<Op>, id: string): map<string, string> {
    if ops == [] then map[]
    else
      var last := ops[|ops| - 1];
      if last.id == id && last.CreateSession? then map[]
      else if last.id == id && last.SetBackendUploadIds? then last.ids
      else IdsSet(ops[..|ops| - 1], id)
  }

  /** The ETags recorded last for a part since the last creation. */
  function EtagsRecorded(ops: seq<Op>, id: string, part: int): Option<map<string, string>> {
    if ops == [] then None
    else
      var last := ops[|ops| - 1];
      if last.id == id && last.CreateSession? then None
      else if last.id == id && last.RecordPartEtags? && last.part == part then Some(last.etags)
      else EtagsRecorded(ops[..|ops| - 1], id, part)
  }

  /** A session is what its history says: who created it and, since then, the upload ids set last and
      for each part the ETags recorded last; other sessions have no part in it. */
  lemma {:induction false} SessionIsHistory(ops: seq<Op>, id: string, part: int)
    ensures var sessions := MemoryAfter(ops);
            && (id in sessions <==> CreatedBy(ops, id).Some?)
            && (id in sessions ==>
                  && CreatedBy(ops, id) == Some(CreateSession(sessions[id].bucket, sessions[id].key, sessions[id].uploadId))
                  && sessions[id].uploadId == id
                  && sessions[id].backendUploadIds == IdsSet(ops, id)
                  && Lookup(sessions[id].partEtags, part) == EtagsRecorded(ops, id, part))
  {
    if ops != [] {
      SessionIsHistory(ops[..|ops| - 1], id, part);
    }
  }

  /** The answers, by the history: a creation gives the empty session, a lookup the session or nothing,
      a change is refused without a session, a deletion never is. */
  lemma {:induction false} ReplyIs(ops: seq<Op>, op: Op)
    ensures var reply := MemoryDo(MemoryAfter(ops), op).1;
            var known := CreatedBy(ops, op.id).Some?;
            match op
            case CreateSession(bucket, key, id) => reply == Found(Session(bucket, key, id, map[], map[]))
            case GetSession(id) =>
              if known then reply.Found? && Lookup(MemoryAfter(ops), id) == Some(reply.session) else reply == Nothing
            case SetBackendUploadIds(_, _) => reply == if known then Done else UnknownSession
            case RecordPartEtags(_, _, _) => reply == if known then Done else UnknownSession
            case DeleteSession(_) => reply == Done
  {
    SessionIsHistory(ops, op.id, 0);
  }

  class MemoryMultipartSessionStore {
    var sessions: Sessions

    constructor ()
      ensures sessions == map[]
    {
      sessions := map[];
    }

    method Perform(op: Op) returns (reply: Reply)
      modifies this
      ensures (sessions, reply) == MemoryDo(old(sessions), op)
    {
      match op {
        case CreateSession(bucket, key, id) =>
          var session := NewSession(bucket, key, id);
          sessions := sessions[id := session];
          reply := Found(session);
        case GetSession(id) =>
          reply := if id in sessions then Found(sessions[id]) else Nothing;
        case SetBackendUploadIds(id, ids) =>
          if id !in sessions {
            return UnknownSession;
          }
          sessions := sessions[id := sessions[id].(backendUploadIds := ids)];
          reply := Done;
        case RecordPartEtags(id, part, etags) =>
          if id !in sessions {
            return UnknownSession;
          }
          sessions := sessions[id := sessions[id].(partEtags := sessions[id].partEtags[part := etags])];
          reply := Done;
        case DeleteSession(id) =>
          sessions := sessions - {id};
          reply := Done;
      }
    }
  }

  // ---------------------------------------------------------------- serialisation

  lemma {:induction false} ShowDistinct()
    ensures forall a: int :: Decimal.Read(Decimal.Show(a)) == Some(a)
  {
    forall a: int ensures Decimal.Read(Decimal.Show(a)) == Some(a) {
      Decimal.ReadShow(a);
    }
  }

  /** Every key is the decimal text of some integer. */
  predicate Canonical<V>(parts: map<string, V>) {
    forall text :: text in parts ==>
      Decimal.Read(text).Some? && Decimal.Show(Decimal.Read(text).value) == text
  }

  function ShowKeys<V>(parts: map<int, V>): (shown: map<string, V>)
    ensures Canonical(shown)
    ensures forall part :: part in parts ==>
              Decimal.Show(part) in shown && shown[Decimal.Show(part)] == parts[part]
    ensures forall text :: text in shown ==> Decimal.Read(text).value in parts
  {
    ShowDistinct();
    map part | part in parts :: Decimal.Show(part) := parts[part]
  }

  function ReadKeys<V>(parts: map<string, V>): (back: map<int, V>)
    requires Canonical(parts)
    ensures forall text :: text in parts ==>
              Decimal.Read(text).value in back && back[Decimal.Read(text).value] == parts[text]
    ensures forall part :: part in back ==> Decimal.Show(part) in parts
  {
    map text | text in parts :: Decimal.Read(text).value := parts[text]
  }

  function Serialize(s: Session): Payload {
    Payload(s.bucket, s.key, s.uploadId, s.backendUploadIds, ShowKeys(s.partEtags))
  }

  function Deserialize(p: Payload): Session
    requires Canonical(p.partEtags)
  {
    Session(p.bucket, p.key, p.uploadId, p.backendUploadIds, ReadKeys(p.partEtags))
  }

  /** Distinct part numbers survive their string keys. */
  lemma {:induction false} ReadKeysShowKeys<V>(parts: map<int, V>)
    ensures ReadKeys(ShowKeys(parts)) == parts
  {
    var shown := ShowKeys(parts);
    var back := ReadKeys(shown);
    forall part ensures part in back <==> part in parts {
      Decimal.ReadShow(part);
    }
    forall part | part in parts ensures back[part] == parts[part] {
      Decimal.ReadShow(part);
    }
  }

  /** Deserialising inverts serialising. */
  lemma {:induction false} DeserializeSerialize(s: Session)
    ensures Deserialize(Serialize(s)) == s
  {
    ReadKeysShowKeys(s.partEtags);
  }

  // ---------------------------------------------------------------- Valkey

  type Database = map<string, Payload>

  predicate Readable(db: Database) {
    forall k :: k in db ==> Canonical(db[k].partEtags)
  }

  function Save(prefix: string, db: Database, s: Session): Database {
    db[prefix + s.uploadId := Serialize(s)]
  }

  function Load(prefix: string, db: Database, id: string): Option<Session>
    requires Readable(db)
  {
    if prefix + id in db then Some(Deserialize(db[prefix + id])) else None
  }

  function ValkeyDo(prefix: string, db: Database, op: Op): (Database, Reply)
    requires Readable(db)
  {
    match op
    case CreateSession(bucket, key, id) =>
      var session := NewSession(bucket, key, id);
      (Save(prefix, db, session), Found(session))
    case GetSession(id) =>
      var loaded := Load(prefix, db, id);
      (db, if loaded.Some? then Found(loaded.value) else Nothing)
    case SetBackendUploadIds(id, ids) =>
      var loaded := Load(prefix, db, id);
      if loaded.None? then (db, UnknownSession)
      else (Save(prefix, db, loaded.value.(backendUploadIds := ids)), Done)
    case RecordPartEtags(id, part, etags) =>
      var loaded := Load(prefix, db, id);
      if loaded.None? then (db, UnknownSession)
      else
        (Save(prefix, db, loaded.value.(partEtags := loaded.value.partEtags[part := etags])), Done)
    case DeleteSession(id) => (db - {prefix + id}, Done)
  }

  class ValkeyMultipartSessionStore {
    const keyPrefix: string
    var client: Database

    ghost predicate Valid()
      reads this
    {
      Readable(client)
    }

    constructor (keyPrefix: string)
      ensures this.keyPrefix == keyPrefix && client == map[] && Valid()
    {
      this.keyPrefix := keyPrefix;
      client := map[];
    }

    method Get(id: string) returns (session: Option<Session>)
      requires Valid()
      ensures session == Load(keyPrefix, client, id)
    {
      var k := keyPrefix + id;
      session := if k in client then Some(Deserialize(client[k])) else None;
    }

    method Set(session: Session)
      requires Valid()
      modifies this
      ensures Valid() && client == Save(keyPrefix, old(client), session)
    {
      DeserializeSerialize(session);
      client := client[keyPrefix + session.uploadId := Serialize(session)];
    }

    method Perform(op: Op) returns (reply: Reply)
      requires Valid()
      modifies this
      ensures Valid() && (client, reply) == ValkeyDo(keyPrefix, old(client), op)
    {
      match op {
        case CreateSession(bucket, key, id) =>
          var session := NewSession(bucket, key, id);
          Set(session);
          reply := Found(session);
        case GetSession(id) =>
          var loaded := Get(id);
          reply := if loaded.Some? then Found(loaded.value) else Nothing;
        case SetBackendUploadIds(id, ids) =>
          var loaded := Get(id);
          if loaded.None? {
            return UnknownSession;
          }
          Set(loaded.value.(backendUploadIds := ids));
          reply := Done;
        case RecordPartEtags(id, part, etags) =>
          var loaded := Get(id);
          if loaded.None? {
            return UnknownSession;
          }
          Set(loaded.value.(partEtags := loaded.value.partEtags[part := etags]));
          reply := Done;
        case DeleteSession(id) =>
          client := client - {keyPrefix + id};
          reply := Done;
      }
    }
  }

  // ---------------------------------------------------------------- refinement

  /** `db` holds exactly the entries of `files`, each under its prefixed name. */
  ghost predicate Filed<V>(prefix: string, db: map<string, V>, files: map<string, V>) {
    && (forall id :: id in files <==> prefix + id in db)
    && (forall id :: id in files ==> db[prefix + id] == files[id])
  }

  lemma {:induction false} PrefixInjective(prefix: string, a: string, b: string)
    ensures prefix + a == prefix + b <==> a == b
  {
    if prefix + a == prefix + b {
      assert a == (prefix + a)[|prefix|..] && b == (prefix + b)[|prefix|..];
    }
  }

  lemma {:induction false} FiledSet<V>(prefix: string, db: map<string, V>, files: map<string, V>, name: string, v: V)
    requires Filed(prefix, db, files)
    ensures Filed(prefix, db[prefix + name := v], files[name := v])
    ensures Filed(prefix, db - {prefix + name}, files - {name})
  {
    forall id ensures prefix + id == prefix + name <==> id == name {
      PrefixInjective(prefix, id, name);
    }
  }

  function SerializeAll(m: Sessions): Database {
    map id | id in m :: Serialize(m[id])
  }

  /** The database holds exactly the serialised sessions of `m`, each filed under its own id. */
  ghost predicate Represents(prefix: string, db: Database, m: Sessions) {
    && Filed(prefix, db, SerializeAll(m))
    && (forall id :: id in m ==> m[id].uploadId == id)
    && Readable(db)
  }

  lemma {:induction false} SerializeAllSet(m: Sessions, id: string, s: Session)
    ensures SerializeAll(m[id := s]) == SerializeAll(m)[id := Serialize(s)]
    ensures SerializeAll(m - {id}) == SerializeAll(m) - {id}
  {
  }

  lemma {:induction false} ReadableSet(db: Database, k: string, s: Session)
    requires Readable(db)
    ensures Readable(db[k := Serialize(s)]) && Readable(db - {k})
  {
  }

  lemma {:induction false} SaveRepresents(prefix: string, db: Database, m: Sessions, s: Session)
    requires Represents(prefix, db, m)
    ensures Represents(prefix, Save(prefix, db, s), m[s.uploadId := s])
  {
    FiledSet(prefix, db, SerializeAll(m), s.uploadId, Serialize(s));
    SerializeAllSet(m, s.uploadId, s);
    ReadableSet(db, prefix + s.uploadId, s);
  }

  lemma {:induction false} DeleteRepresents(prefix: string, db: Database, m: Sessions, gone: string)
    requires Represents(prefix, db, m)
    ensures Represents(prefix, db - {prefix + gone}, m - {gone})
  {
    var s := NewSession("", "", gone);
    FiledSet(prefix, db, SerializeAll(m), gone, Serialize(s));
    SerializeAllSet(m, gone, s);
    ReadableSet(db, prefix + gone, s);
  }

  lemma {:induction false} LoadRepresents(prefix: string, db: Database, m: Sessions, id: string)
    requires Represents(prefix, db, m)
    ensures Load(prefix, db, id) == Lookup(m, id)
  {
    if id in m {
      DeserializeSerialize(m[id]);
    }
  }

  lemma {:induction false} DoRefines(prefix: string, db: Database, m: Sessions, op: Op)
    requires Represents(prefix, db, m)
    ensures var (db', reply') := ValkeyDo(prefix, db, op);
            var (m', reply) := MemoryDo(m, op);
            reply' == reply && Represents(prefix, db', m')
  {
    LoadRepresents(prefix, db, m, op.id);
    match op
    case CreateSession(bucket, key, id) => SaveRepresents(prefix, db, m, NewSession(bucket, key, id));
    case GetSession(_) =>
    case SetBackendUploadIds(id, ids) =>
      if id in m {
        SaveRepresents(prefix, db, m, m[id].(backendUploadIds := ids));
      }
    case RecordPartEtags(id, part, etags) =>
      if id in m {
        SaveRepresents(prefix, db, m, m[id].(partEtags := m[id].partEtags[part := etags]));
      }
    case DeleteSession(id) => DeleteRepresents(prefix, db, m, id);
  }

  function MemoryReplies(m: Sessions, ops: seq<Op>): seq<Reply>
    decreases |ops|
  {
    if ops == [] then []
    else
      var (after, reply) := MemoryDo(m, ops[0]);
      [reply] + MemoryReplies(after, ops[1..])
  }

  ghost predicate ValkeyReplies(prefix: string, db: Database, ops: seq<Op>, replies: seq<Reply>)
    decreases |ops|
  {
    if ops == [] then replies == []
    else
      && Readable(db)
      && var (after, reply) := ValkeyDo(prefix, db, ops[0]);
         replies != [] && replies[0] == reply && ValkeyReplies(prefix, after, ops[1..], replies[1..])
  }

  /** Both stores give the same replies on every sequence of operations. */
  lemma {:induction false} StoresAgree(prefix: string, db: Database, m: Sessions, ops: seq<Op>)
    requires Represents(prefix, db, m)
    ensures ValkeyReplies(prefix, db, ops, MemoryReplies(m, ops))
    decreases |ops|
  {
    if ops != [] {
      DoRefines(prefix, db, m, ops[0]);
      StoresAgree(prefix, ValkeyDo(prefix, db, ops[0]).0, MemoryDo(m, ops[0]).0, ops[1..]);
      var replies := MemoryReplies(m, ops);
      assert replies[1..] == MemoryReplies(MemoryDo(m, ops[0]).0, ops[1..]);
    }
  }

  /** What both stores hold and say after one operation. */
  lemma {:induction false} BothDone(prefix: string, db: Database, m: Sessions, op: Op, served: (Database, Reply), plain: (Sessions, Reply))
    requires Represents(prefix, db, m)
    requires served == ValkeyDo(prefix, db, op) && plain == MemoryDo(m, op)
    ensures served.1 == plain.1 && Represents(prefix, served.0, plain.0)
  {
    DoRefines(prefix, db, m, op);
  }

  /** One operation on both store objects. */
  method PerformBoth(plain: MemoryMultipartSessionStore, served: ValkeyMultipartSessionStore, op: Op)
      returns (a: Reply, b: Reply)
    requires served.Valid() && Represents(served.keyPrefix, served.client, plain.sessions)
    modifies plain, served
    ensures served.Valid() && Represents(served.keyPrefix, served.client, plain.sessions)
    ensures a == b && (plain.sessions, a) == MemoryDo(old(plain.sessions), op)
  {
    ghost var prefix, db, m := served.keyPrefix, served.client, plain.sessions;
    a := plain.Perform(op);
    b := served.Perform(op);
    BothDone(prefix, db, m, op, (served.client, b), (plain.sessions, a));
  }

  lemma {:induction false} NothingStored(prefix: string)
    ensures Represents(prefix, map[], map[])
  {
  }

  /** A sequence of operations on both store objects. */
  method PerformAll(plain: MemoryMultipartSessionStore, served: ValkeyMultipartSessionStore, ops: seq<Op>)
      returns (memory: seq<Reply>, valkey: seq<Reply>)
    requires served.Valid() && Represents(served.keyPrefix, served.client, plain.sessions)
    modifies plain, served
    ensures memory == valkey && |memory| == |ops|
    ensures memory == MemoryReplies(old(plain.sessions), ops)
    decreases |ops|
  {
    if ops == [] {
      return [], [];
    }
    var a, b := PerformBoth(plain, served, ops[0]);
    memory, valkey := PerformAll(plain, served, ops[1..]);
    memory, valkey := [a] + memory, [b] + valkey;
  }

  /** Both store objects, side by side on any sequence of operations, answer alike throughout. */
  method RunBoth(prefix: string, ops: seq<Op>) returns (memory: seq<Reply>, valkey: seq<Reply>)
    ensures memory == valkey && |memory| == |ops|
    ensures memory == MemoryReplies(map[], ops)
  {
    var plain := new MemoryMultipartSessionStore();
    var served := new ValkeyMultipartSessionStore(prefix);
    NothingStored(prefix);
    memory, valkey := PerformAll(plain, served, ops);
  }
}
