/**
 The distributed multipart protocol: a proxy-issued upload id stands for one native upload per
 backend, and completion must hand every backend its own id and its own ETags.

 Handlers suspend between loading a session, sending the requests and storing the answers, so the
 protocol is a step system in which any number of requests, for the same or other sessions, are in
 flight.  The issued sets record what each backend has ever handed out.
 */
module Multipart {
  import opened Common
  import opened Runs
  import opened SyncExecutor
  import opened SessionStore

  type Id = string

  datatype Request = UploadPart(number: int) | Complete(parts: seq<int>) | Abort

  /** An entry of a completion list. */
  datatype Part = Part(number: int, etag: string)

  datatype Pending =
    | Creating(id: Id)
    | Loaded(session: Session, request: Request)
    | Waiting(session: Session, request: Request)

  /** A request handed to a backend, prepared from a loaded session. */
  datatype Sent = Sent(backend: string, session: Session, request: Request)

  /** One answered request to upload a part: the ETags that came back, by backend. */
  datatype Upload = Upload(id: Id, number: int, etags: map<string, string>)

  datatype State = State(
    store: Sessions,
    used: set<Id>,
    pending: map<nat, Pending>,
    sent: set<Sent>,
    issuedIds: set<(string, Id, string)>,
    issuedEtags: set<(string, Id, int, string)>,
    uploads: seq<Upload>)

  datatype Config = Config(backends: seq<Backend>, quorum: int)

  /** A backend's answer: the upload id or ETag it issued, if its response carries one. */
  type Answers = seq<SyncExecutor.Outcome<Option<string>>>

  datatype Step =
    | Create(token: nat, id: Id, bucket: string, key: string)
    | Created(token: nat, answers: Answers, fillRaises: bool)
    | Load(token: nat, id: Id, request: Request)
    | Send(token: nat)
    | Answered(token: nat, answers: Answers)

  // ---------------------------------------------------------------- preparing requests

  /** The upload id a backend is given: its native id if one is mapped, else the client's. */
  function UploadIdFor(session: Session, backend: string): string {
    if backend in session.backendUploadIds && session.backendUploadIds[backend] != ""
    then session.backendUploadIds[backend] else session.uploadId
  }

  predicate Mapped(session: Session, backend: string) {
    backend in session.backendUploadIds && session.backendUploadIds[backend] != ""
  }

  predicate Acked(session: Session, backend: string, number: int) {
    number in session.partEtags && backend in session.partEtags[number]
  }

  /** The completion list a backend is given for the client's part numbers. */
  function PartsFor(session: Session, backend: string, numbers: seq<int>): seq<Part> {
    if numbers == [] then []
    else
      var front := PartsFor(session, backend, numbers[..|numbers| - 1]);
      var number := numbers[|numbers| - 1];
      if Acked(session, backend, number)
      then front + [Part(number, session.partEtags[number][backend])] else front
  }

  method PrepareParts(session: Session, backend: string, numbers: seq<int>) returns (parts: seq<Part>)
    ensures parts == PartsFor(session, backend, numbers)
  {
    parts := [];
    for i := 0 to |numbers|
      invariant parts == PartsFor(session, backend, numbers[..i])
    {
      var number := numbers[i];
      var etags := if number in session.partEtags then session.partEtags[number] else map[];
      if backend in etags {
        parts := parts + [Part(number, etags[backend])];
      }
      assert numbers[..i + 1][..i] == numbers[..i];
    }
    assert numbers[..|numbers|] == numbers;
  }

  function Numbers(parts: seq<Part>): (numbers: seq<int>)
    ensures |numbers| == |parts|
  {
    seq(|parts|, i requires 0 <= i < |parts| => parts[i].number)
  }

  /** The client's numbers, in order, that the backend acknowledged. */
  function AckedOnly(session: Session, backend: string, numbers: seq<int>): seq<int> {
    if numbers == [] then []
    else
      var front := AckedOnly(session, backend, numbers[..|numbers| - 1]);
      var number := numbers[|numbers| - 1];
      if Acked(session, backend, number) then front + [number] else front
  }

  /** A completion list is the client's list in order, restricted to the parts the backend
      acknowledged, each with the ETag recorded for that backend and part. */
  lemma {:induction false} PartsForAcked(session: Session, backend: string, numbers: seq<int>)
    ensures Numbers(PartsFor(session, backend, numbers)) == AckedOnly(session, backend, numbers)
    ensures forall p :: p in PartsFor(session, backend, numbers) ==>
              Acked(session, backend, p.number) && p.etag == session.partEtags[p.number][backend]
  {
    if numbers != [] {
      PartsForAcked(session, backend, numbers[..|numbers| - 1]);
    }
  }

  /** The backend assembles the client's whole list exactly when it acknowledged all of it. */
  lemma {:induction false} WholeListIff(session: Session, backend: string, numbers: seq<int>)
    ensures |AckedOnly(session, backend, numbers)| <= |numbers|
    ensures AckedOnly(session, backend, numbers) == numbers
            <==> forall i :: 0 <= i < |numbers| ==> Acked(session, backend, numbers[i])
  {
    if numbers != [] {
      var n := |numbers| - 1;
      WholeListIff(session, backend, numbers[..n]);
      assert numbers == numbers[..n] + [numbers[n]];
      if Acked(session, backend, numbers[n]) {
        var front := AckedOnly(session, backend, numbers[..n]);
        assert (front + [numbers[n]] == numbers) <==> front == numbers[..n];
      }
    }
  }

  // ---------------------------------------------------------------- the step system

  /** The dictionary built from the answers that carry a value, by backend name. */
  function Values(successes: seq<(Backend, Option<string>)>): map<string, string> {
    if successes == [] then map[]
    else
      var front := Values(successes[..|successes| - 1]);
      var (b, value) := successes[|successes| - 1];
      if value.Some? then front[b.name := value.value] else front
  }

  /** What the backends issued with their answers, whether or not the quorum is met. */
  function Issued(successes: seq<(Backend, Option<string>)>): set<(string, string)> {
    set i | 0 <= i < |successes| && successes[i].1.Some? :: (successes[i].0.name, successes[i].1.value)
  }

  function Tagged(id: Id, issued: set<(string, string)>): set<(string, Id, string)> {
    set x | x in issued :: (x.0, id, x.1)
  }

  function TaggedPart(id: Id, number: int, issued: set<(string, string)>): set<(string, Id, int, string)> {
    set x | x in issued :: (x.0, id, number, x.1)
  }

  predicate Enabled(cfg: Config, s: State, step: Step) {
    match step
    case Create(token, id, _, _) => token !in s.pending && id !in s.used
    case Created(token, answers, _) =>
      token in s.pending && s.pending[token].Creating? && |answers| == |cfg.backends|
    case Load(token, id, _) => token !in s.pending
    case Send(token) => token in s.pending && s.pending[token].Loaded?
    case Answered(token, answers) =>
      token in s.pending && s.pending[token].Waiting? && |answers| == |cfg.backends|
  }

  function Apply(cfg: Config, s: State, step: Step): State
    requires Enabled(cfg, s, step)
  {
    match step
    case Create(token, id, bucket, key) =>
      s.(store := MemoryDo(s.store, CreateSession(bucket, key, id)).0, used := s.used + {id},
         pending := s.pending[token := Creating(id)])
    case Created(token, answers, fillRaises) =>
      var id := s.pending[token].id;
      var successes := Successes(cfg.backends, answers);
      var (stored, reply) := MemoryDo(s.store, SetBackendUploadIds(id, Values(successes)));
      var ok := QuorumMet(|successes|, cfg.quorum) && reply.Done? && !fillRaises;
      s.(store := if ok then stored else MemoryDo(s.store, DeleteSession(id)).0,
         pending := s.pending - {token},
         issuedIds := s.issuedIds + Tagged(id, Issued(successes)))
    case Load(token, id, request) =>
      var reply := MemoryDo(s.store, GetSession(id)).1;
      if reply.Found? then s.(pending := s.pending[token := Loaded(reply.session, request)]) else s
    case Send(token) =>
      var Loaded(session, request) := s.pending[token];
      s.(pending := s.pending[token := Waiting(session, request)],
         sent := s.sent + set b | b in cfg.backends :: Sent(b.name, session, request))
    case Answered(token, answers) =>
      var Waiting(session, request) := s.pending[token];
      var id := session.uploadId;
      var successes := Successes(cfg.backends, answers);
      var met := QuorumMet(|successes|, cfg.quorum);
      var after := s.(pending := s.pending - {token});
      match request
      case UploadPart(number) =>
        after.(store := if met then MemoryDo(s.store, RecordPartEtags(id, number, Values(successes))).0
                        else s.store,
               issuedEtags := s.issuedEtags + TaggedPart(id, number, Issued(successes)),
               uploads := s.uploads + [Upload(id, number, Values(successes))])
      case _ => after.(store := if met then MemoryDo(s.store, DeleteSession(id)).0 else s.store)
  }

  // ---------------------------------------------------------------- what the segments do

  /** The answers of distinct backends are filed by name, and nothing else is. */
  lemma {:induction false} ValuesByName(backends: seq<Backend>, answers: Answers, name: string)
    requires |backends| == |answers| && Distinct(Names(backends))
    ensures name in Values(Successes(backends, answers)) ==> name in Names(backends)
    ensures forall i :: 0 <= i < |backends| && backends[i].name == name ==>
              match answers[i]
              case Response(value) => Lookup(Values(Successes(backends, answers)), name) == value
              case _ => name !in Values(Successes(backends, answers))
  {
    if backends != [] {
      var n := |backends| - 1;
      ValuesByName(backends[..n], answers[..n], name);
      assert Names(backends) == Names(backends[..n]) + [backends[n].name];
      LastDistinct(Names(backends));
      var successes := Successes(backends, answers);
      if answers[n].Response? {
        assert successes[..|successes| - 1] == Successes(backends[..n], answers[..n]);
      }
      forall i | 0 <= i < n && backends[i].name == name ensures backends[n].name != name {
        assert Names(backends)[i] != Names(backends)[n];
      }
    }
  }

  /** A create stores an empty session under its upload id. */
  lemma {:induction false} CreateIs(cfg: Config, s: State, token: nat, id: Id, bucket: string, key: string)
    requires Enabled(cfg, s, Create(token, id, bucket, key))
    ensures var t := Apply(cfg, s, Create(token, id, bucket, key));
            && t.store == s.store[id := Session(bucket, key, id, map[], map[])]
            && t.pending == s.pending[token := Creating(id)]
  {
  }

  /** A quorum of answers files each backend's own id, which that backend is then given; a missed quorum,
      or an error behind it, removes the session.  Other sessions stay as they are. */
  lemma {:induction false} CreatedIs(cfg: Config, s: State, token: nat, answers: Answers, fillRaises: bool, i: nat)
    requires Enabled(cfg, s, Created(token, answers, fillRaises)) && Distinct(Names(cfg.backends))
    requires i < |cfg.backends|
    ensures var t := Apply(cfg, s, Created(token, answers, fillRaises));
            var id := s.pending[token].id;
            && t.pending == s.pending - {token} && t.sent == s.sent
            && (id in t.store <==>
                  |Successes(cfg.backends, answers)| >= cfg.quorum && !fillRaises && id in s.store)
            && (id in t.store ==>
                  && t.store[id] == s.store[id].(backendUploadIds := t.store[id].backendUploadIds)
                  && UploadIdFor(t.store[id], cfg.backends[i].name) ==
                     match answers[i]
                     case Response(Some(native)) => if native != "" then native else s.store[id].uploadId
                     case _ => s.store[id].uploadId)
            && (forall other :: other != id ==> Lookup(t.store, other) == Lookup(s.store, other))
  {
    ValuesByName(cfg.backends, answers, cfg.backends[i].name);
  }

  /** A request goes on with the stored session, and ends at once without one. */
  lemma {:induction false} LoadIs(cfg: Config, s: State, token: nat, id: Id, request: Request)
    requires Enabled(cfg, s, Load(token, id, request))
    ensures var t := Apply(cfg, s, Load(token, id, request));
            && t.store == s.store && t.sent == s.sent
            && t.pending == if id in s.store then s.pending[token := Loaded(s.store[id], request)] else s.pending
  {
  }

  /** A quorum of answers to a part makes each backend that answered be given its own ETag for it, and
      the others none, and changes no other part and no other session; a missed one changes nothing. */
  lemma {:induction false} UploadedIs(cfg: Config, s: State, token: nat, answers: Answers, number: int, i: nat)
    requires Enabled(cfg, s, Answered(token, answers)) && Distinct(Names(cfg.backends))
    requires s.pending[token].request == UploadPart(number) && i < |cfg.backends|
    ensures var t := Apply(cfg, s, Answered(token, answers));
            var id := s.pending[token].session.uploadId;
            && t.pending == s.pending - {token} && t.sent == s.sent
            && if |Successes(cfg.backends, answers)| >= cfg.quorum && id in s.store then
                 && id in t.store
                 && PartsFor(t.store[id], cfg.backends[i].name, [number]) ==
                    (match answers[i]
                     case Response(Some(etag)) => [Part(number, etag)]
                     case _ => [])
                 && t.store[id] == s.store[id].(partEtags := t.store[id].partEtags)
                 && t.store[id].partEtags - {number} == s.store[id].partEtags - {number}
                 && t.store - {id} == s.store - {id}
               else t.store == s.store
  {
    ValuesByName(cfg.backends, answers, cfg.backends[i].name);
    var id := s.pending[token].session.uploadId;
    if |Successes(cfg.backends, answers)| >= cfg.quorum && id in s.store {
      var session := Apply(cfg, s, Answered(token, answers)).store[id];
      assert PartsFor(session, cfg.backends[i].name, [number][..0]) == [];
    }
  }

  /** A completion or abort removes the session with a quorum of answers, and changes nothing without. */
  lemma {:induction false} FinishedIs(cfg: Config, s: State, token: nat, answers: Answers)
    requires Enabled(cfg, s, Answered(token, answers)) && !s.pending[token].request.UploadPart?
    ensures var t := Apply(cfg, s, Answered(token, answers));
            && t.pending == s.pending - {token} && t.sent == s.sent
            && t.store == if |Successes(cfg.backends, answers)| >= cfg.quorum
                          then s.store - {s.pending[token].session.uploadId} else s.store
  {
  }

  /** Backend `b` answered with the value `v`. */
  ghost predicate AnsweredWith(cfg: Config, answers: Answers, b: string, v: string)
    requires |answers| == |cfg.backends|
  {
    exists i :: 0 <= i < |cfg.backends| && cfg.backends[i].name == b && answers[i] == Response(Some(v))
  }

  lemma {:induction false} IssuedIff(cfg: Config, answers: Answers, b: string, v: string)
    requires |answers| == |cfg.backends|
    ensures (b, v) in Issued(Successes(cfg.backends, answers)) <==> AnsweredWith(cfg, answers, b, v)
  {
    var successes := Successes(cfg.backends, answers);
    if (b, v) in Issued(successes) {
      var j :| 0 <= j < |successes| && successes[j].1.Some? && (b, v) == (successes[j].0.name, successes[j].1.value);
      var i := SuccessOrigin(cfg.backends, answers, j);
    }
    if AnsweredWith(cfg, answers, b, v) {
      var i :| 0 <= i < |cfg.backends| && cfg.backends[i].name == b && answers[i] == Response(Some(v));
      OutcomesPartition(cfg.backends, answers, i);
      assert Issued(successes) != {};
    }
  }

  /** What counts as issued is exactly what came back with an answer: an id with the creation of its
      session, an ETag with the upload of its part. */
  lemma {:induction false} IssuedIs(cfg: Config, s: State, step: Step, b: string, id: Id, number: int, v: string)
    requires Enabled(cfg, s, step)
    ensures (b, id, v) in Apply(cfg, s, step).issuedIds <==>
            || (b, id, v) in s.issuedIds
            || (step.Created? && s.pending[step.token].id == id && AnsweredWith(cfg, step.answers, b, v))
    ensures (b, id, number, v) in Apply(cfg, s, step).issuedEtags <==>
            || (b, id, number, v) in s.issuedEtags
            || (step.Answered? && s.pending[step.token].session.uploadId == id
                && s.pending[step.token].request == UploadPart(number) && AnsweredWith(cfg, step.answers, b, v))
  {
    if step.Created? || step.Answered? {
      IssuedIff(cfg, step.answers, b, v);
    }
  }

  ghost function Steps(cfg: Config): (State, State) -> bool {
    (s, t) => exists step :: Enabled(cfg, s, step) && t == Apply(cfg, s, step)
  }

  const START := State(map[], {}, map[], {}, {}, {}, [])

  ghost predicate Reachable(cfg: Config, s: State) {
    exists n: nat :: Reaches(Steps(cfg), START, s, n)
  }

  // ---------------------------------------------------------------- ownership

  /** Every id and ETag in the session was issued by the backend it is filed under, for this
      session and this part, and the ETags of a part all came back from one request. */
  predicate Owned(s: State, session: Session) {
    && (forall b :: b in session.backendUploadIds ==>
          (b, session.uploadId, session.backendUploadIds[b]) in s.issuedIds)
    && (forall number, b :: number in session.partEtags && b in session.partEtags[number] ==>
          (b, session.uploadId, number, session.partEtags[number][b]) in s.issuedEtags)
    && (forall number :: number in session.partEtags ==>
          Upload(session.uploadId, number, session.partEtags[number]) in s.uploads)
  }

  ghost predicate Inv(s: State) {
    && (forall id :: id in s.store ==> s.store[id].uploadId == id && Owned(s, s.store[id]))
    && (forall token :: token in s.pending && s.pending[token].Loaded? ==>
          Owned(s, s.pending[token].session))
    && (forall x :: x in s.sent ==> Owned(s, x.session))
  }

  lemma {:induction false} ValuesIssued(successes: seq<(Backend, Option<string>)>, b: string)
    requires b in Values(successes)
    ensures (b, Values(successes)[b]) in Issued(successes)
  {
    var n := |successes| - 1;
    var (last, value) := successes[n];
    if !(value.Some? && last.name == b) {
      ValuesIssued(successes[..n], b);
      var i :| 0 <= i < n && successes[..n][i].1.Some?
               && (b, Values(successes)[b]) == (successes[..n][i].0.name, successes[..n][i].1.value);
      assert successes[i] == successes[..n][i];
    }
  }

  lemma {:induction false} OwnedGrows(s: State, t: State, session: Session)
    requires Owned(s, session) && s.issuedIds <= t.issuedIds && s.issuedEtags <= t.issuedEtags
    requires s.uploads <= t.uploads
    ensures Owned(t, session)
  {
  }

  lemma {:induction false} NewIdsOwned(s: State, t: State, session: Session, successes: seq<(Backend, Option<string>)>)
    requires Owned(s, session)
    requires t.issuedIds == s.issuedIds + Tagged(session.uploadId, Issued(successes))
    requires t.issuedEtags == s.issuedEtags && t.uploads == s.uploads
    ensures Owned(t, session.(backendUploadIds := Values(successes)))
  {
    forall b | b in Values(successes)
      ensures (b, session.uploadId, Values(successes)[b]) in t.issuedIds
    {
      ValuesIssued(successes, b);
    }
  }

  lemma {:induction false} NewEtagsOwned(s: State, t: State, session: Session, number: int,
                      successes: seq<(Backend, Option<string>)>)
    requires Owned(s, session)
    requires t.issuedIds == s.issuedIds
    requires t.issuedEtags == s.issuedEtags + TaggedPart(session.uploadId, number, Issued(successes))
    requires t.uploads == s.uploads + [Upload(session.uploadId, number, Values(successes))]
    ensures Owned(t, session.(partEtags := session.partEtags[number := Values(successes)]))
  {
    forall b | b in Values(successes)
      ensures (b, session.uploadId, number, Values(successes)[b]) in t.issuedEtags
    {
      ValuesIssued(successes, b);
    }
  }

  /** What is owned stays owned: issued ids and ETags are never forgotten. */
  lemma {:induction false} StillOwned(cfg: Config, s: State, step: Step)
    requires Enabled(cfg, s, step)
    ensures forall session :: Owned(s, session) ==> Owned(Apply(cfg, s, step), session)
  {
    var t := Apply(cfg, s, step);
    forall session | Owned(s, session) ensures Owned(t, session) {
      OwnedGrows(s, t, session);
    }
  }

  lemma {:induction false} CreatedInv(cfg: Config, s: State, step: Step)
    requires Inv(s) && Enabled(cfg, s, step) && step.Created?
    ensures Inv(Apply(cfg, s, step))
  {
    StillOwned(cfg, s, step);
    var id := s.pending[step.token].id;
    if id in s.store {
      NewIdsOwned(s, Apply(cfg, s, step), s.store[id], Successes(cfg.backends, step.answers));
    }
  }

  lemma {:induction false} AnsweredInv(cfg: Config, s: State, step: Step)
    requires Inv(s) && Enabled(cfg, s, step) && step.Answered?
    ensures Inv(Apply(cfg, s, step))
  {
    StillOwned(cfg, s, step);
    var Waiting(session, request) := s.pending[step.token];
    var id := session.uploadId;
    if id in s.store && request.UploadPart? {
      NewEtagsOwned(s, Apply(cfg, s, step), s.store[id], request.number, Successes(cfg.backends, step.answers));
    }
  }

  lemma {:induction false} StepInv(cfg: Config, s: State, step: Step)
    requires Inv(s) && Enabled(cfg, s, step)
    ensures Inv(Apply(cfg, s, step))
  {
    match step
    case Created(_, _, _) => CreatedInv(cfg, s, step);
    case Answered(_, _) => AnsweredInv(cfg, s, step);
    case _ => StillOwned(cfg, s, step);
  }

  lemma {:induction false} ReachableInv(cfg: Config, s: State)
    requires Reachable(cfg, s)
    ensures Inv(s)
  {
    var n: nat :| Reaches(Steps(cfg), START, s, n);
    forall a, b | Inv(a) && Steps(cfg)(a, b) ensures Inv(b) {
      var step :| Enabled(cfg, a, step) && b == Apply(cfg, a, step);
      StepInv(cfg, a, step);
    }
    ReachesKeeps(Steps(cfg), Inv, START, s, n);
  }

  /** Ownership over every run: a mapped upload id and every ETag sent to a backend were issued by
      that same backend for that session and part; a completion list follows the client's list,
      restricted to what the backend acknowledged. */
  lemma {:induction false} Ownership(cfg: Config, s: State, x: Sent)
    requires Reachable(cfg, s) && x in s.sent
    ensures UploadIdFor(x.session, x.backend) == x.session.uploadId ||
            (x.backend, x.session.uploadId, UploadIdFor(x.session, x.backend)) in s.issuedIds
    ensures Mapped(x.session, x.backend) ==>
              (x.backend, x.session.uploadId, UploadIdFor(x.session, x.backend)) in s.issuedIds
    ensures x.request.Complete? ==>
              var parts := PartsFor(x.session, x.backend, x.request.parts);
              && Numbers(parts) == AckedOnly(x.session, x.backend, x.request.parts)
              && forall p :: p in parts ==>
                   (x.backend, x.session.uploadId, p.number, p.etag) in s.issuedEtags
  {
    ReachableInv(cfg, s);
    if x.request.Complete? {
      PartsForAcked(x.session, x.backend, x.request.parts);
    }
  }

  /** A request waiting for answers has been handed to every backend; every request handed out went to
      all backends, and to nobody else. */
  ghost predicate Spread(cfg: Config, s: State) {
    && (forall token, b :: token in s.pending && s.pending[token].Waiting? && b in cfg.backends ==>
          Sent(b.name, s.pending[token].session, s.pending[token].request) in s.sent)
    && (forall x, b :: x in s.sent && b in cfg.backends ==> Sent(b.name, x.session, x.request) in s.sent)
    && (forall x :: x in s.sent ==> x.backend in Names(cfg.backends))
  }

  lemma {:induction false} SpreadStep(cfg: Config, s: State, step: Step)
    requires Spread(cfg, s) && Enabled(cfg, s, step)
    ensures Spread(cfg, Apply(cfg, s, step))
  {
    if step.Send? {
      forall b | b in cfg.backends ensures b.name in Names(cfg.backends) {
        var i :| 0 <= i < |cfg.backends| && cfg.backends[i] == b;
        assert Names(cfg.backends)[i] == b.name;
      }
    }
  }

  /** Over every run each request that was handed to some backend, which is a configured one, was handed
      with the same session to every configured backend. */
  lemma {:induction false} SentToAll(cfg: Config, s: State, x: Sent, b: Backend)
    requires Reachable(cfg, s) && x in s.sent && b in cfg.backends
    ensures Sent(b.name, x.session, x.request) in s.sent
    ensures x.backend in Names(cfg.backends)
  {
    ReachableSpread(cfg, s);
  }

  /** So was each request that waits for its answers. */
  lemma {:induction false} WaitingSent(cfg: Config, s: State, token: nat, b: Backend)
    requires Reachable(cfg, s) && token in s.pending && s.pending[token].Waiting? && b in cfg.backends
    ensures Sent(b.name, s.pending[token].session, s.pending[token].request) in s.sent
  {
    ReachableSpread(cfg, s);
  }

  lemma {:induction false} ReachableSpread(cfg: Config, s: State)
    requires Reachable(cfg, s)
    ensures Spread(cfg, s)
  {
    var n: nat :| Reaches(Steps(cfg), START, s, n);
    forall a, b | Spread(cfg, a) && Steps(cfg)(a, b) ensures Spread(cfg, b) {
      var step :| Enabled(cfg, a, step) && b == Apply(cfg, a, step);
      SpreadStep(cfg, a, step);
    }
    ReachesKeeps(Steps(cfg), a => Spread(cfg, a), START, s, n);
  }

  // ---------------------------------------------------------------- equal assembly

  /** Every successful response carries the id or ETag it is asked for, as S3 promises. */
  predicate Tells(answers: Answers) {
    forall i :: 0 <= i < |answers| && answers[i].Response? ==> answers[i].response.Some?
  }

  predicate Telling(step: Step) {
    (step.Created? || step.Answered?) ==> Tells(step.answers)
  }

  ghost function TellingSteps(cfg: Config): (State, State) -> bool {
    (s, t) => exists step :: Enabled(cfg, s, step) && Telling(step) && t == Apply(cfg, s, step)
  }

  /** Every part on record was acknowledged by every backend. */
  predicate FullyAcked(cfg: Config, session: Session) {
    forall number, b :: number in session.partEtags && b in cfg.backends ==>
      Acked(session, b.name, number)
  }

  ghost predicate Full(cfg: Config, s: State) {
    && (forall id :: id in s.store ==> FullyAcked(cfg, s.store[id]))
    && (forall token :: token in s.pending && s.pending[token].Loaded? ==>
          FullyAcked(cfg, s.pending[token].session))
    && (forall x :: x in s.sent ==> FullyAcked(cfg, x.session))
  }

  /** When all backends answer, each has its value recorded. */
  lemma {:induction false} AllValues(backends: seq<Backend>, answers: Answers, b: Backend)
    requires |backends| == |answers| == |Successes(backends, answers)| && Tells(answers)
    requires b in backends
    ensures b.name in Values(Successes(backends, answers))
  {
    var n := |backends| - 1;
    OutcomesCount(backends[..n], answers[..n]);
    assert answers[n].Response?;
    var successes := Successes(backends, answers);
    assert successes[..n] == Successes(backends[..n], answers[..n]);
    if b != backends[n] {
      assert b in backends[..n];
      AllValues(backends[..n], answers[..n], b);
    }
  }

  lemma {:induction false} FullStep(cfg: Config, s: State, step: Step)
    requires Full(cfg, s) && Enabled(cfg, s, step) && Telling(step) && cfg.quorum == |cfg.backends|
    ensures Full(cfg, Apply(cfg, s, step))
  {
    if step.Answered? && QuorumMet(|Successes(cfg.backends, step.answers)|, cfg.quorum) {
      OutcomesCount(cfg.backends, step.answers);
      forall b | b in cfg.backends ensures b.name in Values(Successes(cfg.backends, step.answers)) {
        AllValues(cfg.backends, step.answers, b);
      }
    }
  }

  /** A completion list of parts that were all acknowledged, entry by entry. */
  lemma {:induction false} WholeListParts(session: Session, backend: string, numbers: seq<int>)
    requires forall i :: 0 <= i < |numbers| ==> Acked(session, backend, numbers[i])
    ensures |PartsFor(session, backend, numbers)| == |numbers|
    ensures forall i :: 0 <= i < |numbers| ==>
              && Acked(session, backend, numbers[i])
              && PartsFor(session, backend, numbers)[i] == Part(numbers[i], session.partEtags[numbers[i]][backend])
  {
    if numbers != [] {
      WholeListParts(session, backend, numbers[..|numbers| - 1]);
    }
  }

  lemma {:induction false} TellingInv(cfg: Config, s: State, n: nat)
    requires Reaches(TellingSteps(cfg), START, s, n)
    ensures Inv(s)
  {
    forall a, b | Inv(a) && TellingSteps(cfg)(a, b) ensures Inv(b) {
      var step :| Enabled(cfg, a, step) && Telling(step) && b == Apply(cfg, a, step);
      StepInv(cfg, a, step);
    }
    ReachesKeeps(TellingSteps(cfg), Inv, START, s, n);
  }

  lemma {:induction false} TellingSpread(cfg: Config, s: State, n: nat)
    requires Reaches(TellingSteps(cfg), START, s, n)
    ensures Spread(cfg, s)
  {
    forall a, c | Spread(cfg, a) && TellingSteps(cfg)(a, c) ensures Spread(cfg, c) {
      var step :| Enabled(cfg, a, step) && Telling(step) && c == Apply(cfg, a, step);
      SpreadStep(cfg, a, step);
    }
    ReachesKeeps(TellingSteps(cfg), a => Spread(cfg, a), START, s, n);
  }

  lemma {:induction false} TellingFull(cfg: Config, s: State, n: nat)
    requires cfg.quorum == |cfg.backends| && Reaches(TellingSteps(cfg), START, s, n)
    ensures Full(cfg, s)
  {
    forall a, c | Full(cfg, a) && TellingSteps(cfg)(a, c) ensures Full(cfg, c) {
      var step :| Enabled(cfg, a, step) && Telling(step) && c == Apply(cfg, a, step);
      FullStep(cfg, a, step);
    }
    ReachesKeeps(TellingSteps(cfg), a => Full(cfg, a), START, s, n);
  }

  lemma {:induction false} AllAcked(cfg: Config, s: State, n: nat, x: Sent, b: Backend)
    requires cfg.quorum == |cfg.backends| && Reaches(TellingSteps(cfg), START, s, n)
    requires x in s.sent && x.request.Complete? && b in cfg.backends
    requires forall i :: 0 <= i < |x.request.parts| ==> x.request.parts[i] in x.session.partEtags
    ensures forall i :: 0 <= i < |x.request.parts| ==> Acked(x.session, b.name, x.request.parts[i])
  {
    TellingFull(cfg, s, n);
    assert FullyAcked(cfg, x.session);
  }

  /** With a quorum of all synchronous backends every one of them is told to assemble exactly the
      client's list, for any list of acknowledged parts, and the ETags that the backends are given
      for a part all came back from one and the same upload of it. */
  lemma {:induction false} EqualAssembly(cfg: Config, s: State, n: nat, x: Sent, b: Backend)
    requires cfg.quorum == |cfg.backends| && Reaches(TellingSteps(cfg), START, s, n)
    requires x in s.sent && x.request.Complete? && b in cfg.backends
    requires forall i :: 0 <= i < |x.request.parts| ==> x.request.parts[i] in x.session.partEtags
    ensures Sent(b.name, x.session, x.request) in s.sent
    ensures Numbers(PartsFor(x.session, b.name, x.request.parts)) == x.request.parts
    ensures forall i :: 0 <= i < |x.request.parts| ==>
              var number := x.request.parts[i];
              var upload := Upload(x.session.uploadId, number, x.session.partEtags[number]);
              && upload in s.uploads && b.name in upload.etags
              && PartsFor(x.session, b.name, x.request.parts)[i] == Part(number, upload.etags[b.name])
  {
    TellingSpread(cfg, s, n);
    TellingInv(cfg, s, n);
    assert Owned(s, x.session);
    AllAcked(cfg, s, n, x, b);
    PartsForAcked(x.session, b.name, x.request.parts);
    WholeListIff(x.session, b.name, x.request.parts);
    WholeListParts(x.session, b.name, x.request.parts);
  }

  /** Answers in which the last backend failed and the others issued `value`. */
  function AllButLast(n: nat, value: string): Answers
    requires n > 0
  {
    seq(n, i => if i < n - 1 then Response(Some(value)) else SyncExecutor.Exception("timeout"))
  }

  lemma {:induction false} AllAnswering(backends: seq<Backend>, answers: Answers, name: string)
    requires |backends| == |answers|
    requires forall i :: 0 <= i < |answers| ==> answers[i].Response?
    requires forall i :: 0 <= i < |backends| ==> backends[i].name != name
    ensures |Successes(backends, answers)| == |backends|
    ensures name !in Values(Successes(backends, answers))
  {
    if backends != [] {
      var n := |backends| - 1;
      AllAnswering(backends[..n], answers[..n], name);
      var successes := Successes(backends, answers);
      assert successes[..n] == Successes(backends[..n], answers[..n]);
    }
  }

  lemma {:induction false} AllButLastAnswers(cfg: Config, value: string)
    requires |cfg.backends| > 0 && Distinct(Names(cfg.backends))
    ensures var n := |cfg.backends|;
            var successes := Successes(cfg.backends, AllButLast(n, value));
            |successes| == n - 1 && cfg.backends[n - 1].name !in Values(successes)
  {
    var n := |cfg.backends|;
    var front := AllButLast(n, value)[..n - 1];
    var names := Names(cfg.backends);
    assert forall i :: 0 <= i < n - 1 ==> names[i] != names[n - 1];
    AllAnswering(cfg.backends[..n - 1], front, cfg.backends[n - 1].name);
  }

  lemma {:induction false} TellingThen(cfg: Config, s: State, t: State, n: nat, step: Step)
    requires Reaches(TellingSteps(cfg), s, t, n) && Enabled(cfg, t, step) && Telling(step)
    ensures Reaches(TellingSteps(cfg), s, Apply(cfg, t, step), n + 1)
  {
    ReachesAppend(TellingSteps(cfg), s, t, Apply(cfg, t, step), n);
  }

  /** The upload "u" with a native id on all backends but the last. */
  lemma {:induction false} UploadCreated(cfg: Config) returns (s: State)
    requires 1 <= cfg.quorum < |cfg.backends| && Distinct(Names(cfg.backends))
    ensures Reaches(TellingSteps(cfg), START, s, 2)
    ensures "u" in s.store && s.store["u"].uploadId == "u" && s.pending == map[]
  {
    var answers := AllButLast(|cfg.backends|, "v");
    AllButLastAnswers(cfg, "v");
    s := Apply(cfg, START, Create(0, "u", "b", "k"));
    TellingThen(cfg, START, START, 0, Create(0, "u", "b", "k"));
    TellingThen(cfg, START, s, 1, Created(0, answers, false));
    s := Apply(cfg, s, Created(0, answers, false));
  }

  /** Part 1 uploaded to all backends but the last. */
  lemma {:induction false} PartUploaded(cfg: Config) returns (s: State)
    requires 1 <= cfg.quorum < |cfg.backends| && Distinct(Names(cfg.backends))
    ensures Reaches(TellingSteps(cfg), START, s, 5)
    ensures "u" in s.store && s.store["u"].uploadId == "u" && s.pending == map[]
    ensures 1 in s.store["u"].partEtags && !Acked(s.store["u"], cfg.backends[|cfg.backends| - 1].name, 1)
  {
    var answers := AllButLast(|cfg.backends|, "v");
    AllButLastAnswers(cfg, "v");
    s := UploadCreated(cfg);
    TellingThen(cfg, START, s, 2, Load(0, "u", UploadPart(1)));
    s := Apply(cfg, s, Load(0, "u", UploadPart(1)));
    TellingThen(cfg, START, s, 3, Send(0));
    s := Apply(cfg, s, Send(0));
    TellingThen(cfg, START, s, 4, Answered(0, answers));
    s := Apply(cfg, s, Answered(0, answers));
  }

  /** A smaller quorum does not give this: one backend that misses one part is told to complete the
      upload without a part that is on record. */
  lemma {:induction false} SmallQuorumMisses(cfg: Config) returns (s: State, x: Sent)
    requires 1 <= cfg.quorum < |cfg.backends| && Distinct(Names(cfg.backends))
    ensures Reaches(TellingSteps(cfg), START, s, 7)
    ensures x in s.sent && x.backend == cfg.backends[|cfg.backends| - 1].name && x.request == Complete([1])
    ensures 1 in x.session.partEtags && PartsFor(x.session, x.backend, [1]) == []
  {
    var last := cfg.backends[|cfg.backends| - 1];
    s := PartUploaded(cfg);
    var session := s.store["u"];
    TellingThen(cfg, START, s, 5, Load(0, "u", Complete([1])));
    s := Apply(cfg, s, Load(0, "u", Complete([1])));
    TellingThen(cfg, START, s, 6, Send(0));
    s := Apply(cfg, s, Send(0));
    x := Sent(last.name, session, Complete([1]));
    assert last in cfg.backends;
    assert PartsFor(session, last.name, [1][..0]) == [];
  }
}
