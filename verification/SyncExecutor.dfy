/**
 Concurrent writes to several backends: splitting the outcomes, the quorum decision, the response
 or error shown to the client, and the asynchronous fill of the backends that missed the write.
 */
module SyncExecutor {
  import opened Common

  datatype Backend = Backend(name: string, isPrimary: bool)

  /** What gathering one backend's call yields: a response, an exception, or something else. */
  datatype Outcome<R> = Response(response: R) | Exception(error: string) | Unexpected

  datatype Execution<R> = Execution(successes: seq<(Backend, R)>, failures: seq<(Backend, string)>)

  const UNEXPECTED := "unexpected concurrent result type"

  /** The backends that answered, with their answers, in order. */
  function Successes<R>(backends: seq<Backend>, outcomes: seq<Outcome<R>>): seq<(Backend, R)>
    requires |backends| == |outcomes|
  {
    if backends == [] then []
    else
      var front := Successes(backends[..|backends| - 1], outcomes[..|outcomes| - 1]);
      var last := outcomes[|outcomes| - 1];
      if last.Response? then front + [(backends[|backends| - 1], last.response)] else front
  }

  /** The backends that did not, with their errors, in order. */
  function Failures<R>(backends: seq<Backend>, outcomes: seq<Outcome<R>>): seq<(Backend, string)>
    requires |backends| == |outcomes|
  {
    if backends == [] then []
    else
      var front := Failures(backends[..|backends| - 1], outcomes[..|outcomes| - 1]);
      match outcomes[|outcomes| - 1]
      case Response(_) => front
      case Exception(error) => front + [(backends[|backends| - 1], error)]
      case Unexpected => front + [(backends[|backends| - 1], UNEXPECTED)]
  }

  method ExecuteConcurrent<R>(backends: seq<Backend>, outcomes: seq<Outcome<R>>)
      returns (result: Option<Execution<R>>)
    requires |backends| == |outcomes|
    ensures result.None? <==> backends == []
    ensures result.Some? ==>
              result.value == Execution(Successes(backends, outcomes), Failures(backends, outcomes))
  {
    if backends == [] {
      return None;
    }
    var successes: seq<(Backend, R)> := [];
    var failures: seq<(Backend, string)> := [];
    for i := 0 to |backends|
      invariant successes == Successes(backends[..i], outcomes[..i])
      invariant failures == Failures(backends[..i], outcomes[..i])
    {
      match outcomes[i] {
        case Response(r) => successes := successes + [(backends[i], r)];
        case Exception(error) => failures := failures + [(backends[i], error)];
        case Unexpected => failures := failures + [(backends[i], UNEXPECTED)];
      }
      assert backends[..i + 1][..i] == backends[..i] && outcomes[..i + 1][..i] == outcomes[..i];
    }
    assert backends[..|backends|] == backends && outcomes[..|outcomes|] == outcomes;
    result := Some(Execution(successes, failures));
  }

  function ErrorOf<R>(outcome: Outcome<R>): string
    requires !outcome.Response?
  {
    if outcome.Exception? then outcome.error else UNEXPECTED
  }

  /** Both lists grow only at their ends. */
  lemma {:induction false} OutcomesGrow<R>(backends: seq<Backend>, outcomes: seq<Outcome<R>>)
    requires |backends| == |outcomes| && backends != []
    ensures var n := |backends| - 1;
            var last := outcomes[n];
            var s, f := Successes(backends[..n], outcomes[..n]), Failures(backends[..n], outcomes[..n]);
            && Successes(backends, outcomes) == (if last.Response? then s + [(backends[n], last.response)] else s)
            && Failures(backends, outcomes) == (if last.Response? then f else f + [(backends[n], ErrorOf(last))])
  {
  }

  /** Place number `i` is found in the list its outcome belongs to. */
  ghost predicate Placed<R>(backends: seq<Backend>, outcomes: seq<Outcome<R>>, i: nat, r: nat,
                      s: seq<(Backend, R)>, f: seq<(Backend, string)>)
    requires |backends| == |outcomes| && i < |backends|
  {
    if outcomes[i].Response? then r < |s| && s[r] == (backends[i], outcomes[i].response)
    else 0 <= i - r < |f| && f[i - r] == (backends[i], ErrorOf(outcomes[i]))
  }

  lemma {:induction false} PlacedLater<R>(backends: seq<Backend>, outcomes: seq<Outcome<R>>, i: nat, r: nat)
    requires |backends| == |outcomes| && i < |backends| - 1
    requires var n := |backends| - 1;
             Placed(backends[..n], outcomes[..n], i, r, Successes(backends[..n], outcomes[..n]),
                    Failures(backends[..n], outcomes[..n]))
    ensures Placed(backends, outcomes, i, r, Successes(backends, outcomes), Failures(backends, outcomes))
  {
    OutcomesGrow(backends, outcomes);
  }

  lemma {:induction false} PlacedLast<R>(backends: seq<Backend>, outcomes: seq<Outcome<R>>)
    requires |backends| == |outcomes| && backends != []
    ensures var n := |backends| - 1;
            Placed(backends, outcomes, n, |Successes(backends[..n], outcomes[..n])|,
                   Successes(backends, outcomes), Failures(backends, outcomes))
  {
    OutcomesGrow(backends, outcomes);
    OutcomesCount(backends[..|backends| - 1], outcomes[..|backends| - 1]);
  }

  /** Successes and failures share the backends out in order: after `r` earlier successes, outcome
      `i` is success number `r` or failure number `i - r`, with its own backend. */
  lemma {:induction false} OutcomesPartition<R>(backends: seq<Backend>, outcomes: seq<Outcome<R>>, i: nat)
    requires |backends| == |outcomes| && i < |backends|
    ensures Placed(backends, outcomes, i, |Successes(backends[..i], outcomes[..i])|,
                   Successes(backends, outcomes), Failures(backends, outcomes))
  {
    var n := |backends| - 1;
    if i < n {
      OutcomesPartition(backends[..n], outcomes[..n], i);
      assert backends[..n][..i] == backends[..i] && outcomes[..n][..i] == outcomes[..i];
      PlacedLater(backends, outcomes, i, |Successes(backends[..i], outcomes[..i])|);
    } else {
      PlacedLast(backends, outcomes);
    }
  }

  lemma {:induction false} OutcomesCount<R>(backends: seq<Backend>, outcomes: seq<Outcome<R>>)
    requires |backends| == |outcomes|
    ensures |Successes(backends, outcomes)| + |Failures(backends, outcomes)| == |backends|
  {
    if backends != [] {
      OutcomesCount(backends[..|backends| - 1], outcomes[..|outcomes| - 1]);
    }
  }

  predicate QuorumMet(successCount: nat, quorum: int) {
    successCount >= quorum
  }

  /** With a validated quorum a met quorum leaves a response to give and a missed one a failure to
      raise; a quorum of all backends is met only if none failed. */
  lemma {:induction false} QuorumAccounting<R>(backends: seq<Backend>, outcomes: seq<Outcome<R>>, quorum: int)
    requires |backends| == |outcomes| && 1 <= quorum <= |backends|
    ensures QuorumMet(|Successes(backends, outcomes)|, quorum) ==> Successes(backends, outcomes) != []
    ensures !QuorumMet(|Successes(backends, outcomes)|, quorum) ==> Failures(backends, outcomes) != []
    ensures quorum == |backends| ==>
              (QuorumMet(|Successes(backends, outcomes)|, quorum) <==> Failures(backends, outcomes) == [])
  {
    OutcomesCount(backends, outcomes);
  }

  /** `i` is the first index whose backend passes the test. */
  predicate First<T>(entries: seq<(Backend, T)>, i: nat, test: Backend -> bool) {
    i < |entries| && test(entries[i].0) && forall j :: 0 <= j < i ==> !test(entries[j].0)
  }

  predicate NoneOf<T>(entries: seq<(Backend, T)>, test: Backend -> bool) {
    forall j :: 0 <= j < |entries| ==> !test(entries[j].0)
  }

  function Named(name: string): Backend -> bool {
    (b: Backend) => b.name == name
  }

  function Primary(): Backend -> bool {
    (b: Backend) => b.isPrimary
  }

  /** Entry `i` is the first of the configured backend, else the first of a primary, else the first. */
  predicate Selected<T>(entries: seq<(Backend, T)>, configured: Option<string>, i: nat) {
    && i < |entries|
    && if configured.Some? && !NoneOf(entries, Named(configured.value)) then First(entries, i, Named(configured.value))
       else if !NoneOf(entries, Primary()) then First(entries, i, Primary())
       else i == 0
  }

  /** The configured backend goes first, then a primary; among several the first. */
  lemma {:induction false} SelectedIs<T>(entries: seq<(Backend, T)>, configured: Option<string>, i: nat)
    requires Selected(entries, configured, i)
    ensures i < |entries|
    ensures if exists j :: 0 <= j < |entries| && Some(entries[j].0.name) == configured then
              && Some(entries[i].0.name) == configured
              && forall j :: 0 <= j < i ==> Some(entries[j].0.name) != configured
            else if exists j :: 0 <= j < |entries| && entries[j].0.isPrimary then
              && entries[i].0.isPrimary
              && forall j :: 0 <= j < i ==> !entries[j].0.isPrimary
            else i == 0
  {
    assert configured.Some? ==> forall b: Backend :: Named(configured.value)(b) <==> Some(b.name) == configured;
  }

  /** The response of the configured backend if it succeeded, else of the primary if it succeeded,
      else of the first success; an error only without any success. */
  method SelectClientResponse<R>(successes: seq<(Backend, R)>, responseBackend: Option<string>)
      returns (response: Option<R>)
    ensures response.None? <==> successes == []
    ensures response.Some? ==>
              exists i: nat :: Selected(successes, responseBackend, i) && response.value == successes[i].1
  {
    if successes == [] {
      return None;
    }
    if responseBackend.Some? {
      for i := 0 to |successes|
        invariant forall j :: 0 <= j < i ==> !Named(responseBackend.value)(successes[j].0)
      {
        if successes[i].0.name == responseBackend.value {
          assert Selected(successes, responseBackend, i);
          return Some(successes[i].1);
        }
      }
    }
    for i := 0 to |successes|
      invariant forall j :: 0 <= j < i ==> !Primary()(successes[j].0)
    {
      if successes[i].0.isPrimary {
        assert Selected(successes, responseBackend, i);
        return Some(successes[i].1);
      }
    }
    assert Selected(successes, responseBackend, 0);
    response := Some(successes[0].1);
  }

  /** The primary's error if the primary failed, else the first one. */
  method BestFailure(failures: seq<(Backend, string)>) returns (error: string)
    requires failures != []
    ensures exists i: nat :: Selected(failures, None, i) && error == failures[i].1
  {
    for i := 0 to |failures|
      invariant forall j :: 0 <= j < i ==> !Primary()(failures[j].0)
    {
      if failures[i].0.isPrimary {
        assert Selected(failures, None, i);
        return failures[i].1;
      }
    }
    assert Selected(failures, None, 0);
    error := failures[0].1;
  }

  // ---------------------------------------------------------------- asynchronous fill

  function Names(backends: seq<Backend>): (names: seq<string>)
    ensures |names| == |backends|
    ensures forall i :: 0 <= i < |names| ==> names[i] == backends[i].name
  {
    seq(|backends|, i requires 0 <= i < |backends| => backends[i].name)
  }

  predicate Distinct<T(==)>(s: seq<T>) {
    forall i, j :: 0 <= i < j < |s| ==> s[i] != s[j]
  }

  /** The clients, in order, whose name is not in `done`. */
  function Missing(clients: seq<string>, done: set<string>): seq<string> {
    if clients == [] then []
    else
      var front := Missing(clients[..|clients| - 1], done);
      var last := clients[|clients| - 1];
      if last in done then front else front + [last]
  }

  method FillTargets(clients: seq<Backend>, successes: seq<Backend>) returns (targets: seq<string>)
    ensures targets == Missing(Names(clients), set b | b in successes :: b.name)
  {
    ghost var done := set b | b in successes :: b.name;
    var names := Names(clients);
    targets := [];
    for i := 0 to |clients|
      invariant targets == Missing(names[..i], done)
    {
      var j := 0;
      while j < |successes| && successes[j].name != names[i]
        invariant 0 <= j <= |successes|
        invariant forall k :: 0 <= k < j ==> successes[k].name != names[i]
      {
        j := j + 1;
      }
      assert j < |successes| ==> successes[j] in successes;
      assert names[..i + 1][..i] == names[..i];
      if j == |successes| {
        targets := targets + [names[i]];
      }
    }
    assert names[..|names|] == names;
  }

  /** Where the fill reads from: the configured backend if it succeeded, else the first success. */
  method FillSource(successes: seq<Backend>, responseBackend: Option<string>) returns (source: string)
    requires successes != []
    ensures source in Names(successes)
    ensures source == if responseBackend.Some? && responseBackend.value in Names(successes)
                      then responseBackend.value else successes[0].name
  {
    for i := 0 to |successes|
      invariant forall j :: 0 <= j < i ==> Some(successes[j].name) != responseBackend
    {
      if Some(successes[i].name) == responseBackend {
        assert Names(successes)[i] == successes[i].name;
        return successes[i].name;
      }
    }
    assert Names(successes)[0] == successes[0].name;
    source := successes[0].name;
  }

  lemma {:induction false} MissingCount(clients: seq<string>, done: set<string>, name: string)
    ensures multiset(Missing(clients, done))[name] == if name in done then 0 else multiset(clients)[name]
  {
    if clients != [] {
      var n := |clients| - 1;
      MissingCount(clients[..n], done, name);
      assert clients == clients[..n] + [clients[n]];
    }
  }

  /** The missing clients stand in the order of the clients. */
  lemma {:induction false} MissingAt(clients: seq<string>, done: set<string>, i: nat)
    requires i < |clients| && clients[i] !in done
    ensures |Missing(clients[..i], done)| < |Missing(clients, done)|
    ensures Missing(clients, done)[|Missing(clients[..i], done)|] == clients[i]
  {
    var n := |clients| - 1;
    if i < n {
      MissingAt(clients[..n], done, i);
      assert clients[..n][..i] == clients[..i];
    }
  }

  lemma {:induction false} DistinctCount<T>(s: seq<T>, x: T)
    requires Distinct(s)
    ensures multiset(s)[x] == if x in s then 1 else 0
  {
    if s != [] {
      var n := |s| - 1;
      DistinctCount(s[..n], x);
      assert s == s[..n] + [s[n]];
    }
  }

  /** The backends that took the write and the fill targets are together every client exactly
      once, when the synchronous backends are distinct clients. */
  lemma {:induction false} FillCovers(clients: seq<string>, written: seq<string>)
    requires Distinct(clients) && Distinct(written)
    requires forall name :: name in written ==> name in clients
    ensures multiset(written) + multiset(Missing(clients, set name | name in written))
            == multiset(clients)
  {
    var done := set name | name in written;
    forall name ensures multiset(written)[name] + multiset(Missing(clients, done))[name]
                        == multiset(clients)[name] {
      MissingCount(clients, done, name);
      DistinctCount(written, name);
      DistinctCount(clients, name);
    }
  }

  // ---------------------------------------------------------------- the quorum strategy

  function BackendsOf<T>(entries: seq<(Backend, T)>): (backends: seq<Backend>)
    ensures |backends| == |entries|
    ensures forall i :: 0 <= i < |entries| ==> backends[i] == entries[i].0
  {
    seq(|entries|, i requires 0 <= i < |entries| => entries[i].0)
  }

  /** The names of the backends that took the write. */
  function Written<R>(backends: seq<Backend>, outcomes: seq<Outcome<R>>): seq<string>
    requires |backends| == |outcomes|
  {
    Names(BackendsOf(Successes(backends, outcomes)))
  }

  lemma {:induction false} NamesAppend<R>(entries: seq<(Backend, R)>, x: (Backend, R))
    ensures Names(BackendsOf(entries + [x])) == Names(BackendsOf(entries)) + [x.0.name]
  {
  }

  lemma {:induction false} LastDistinct<T>(s: seq<T>)
    requires s != [] && Distinct(s)
    ensures Distinct(s[..|s| - 1]) && s[|s| - 1] !in s[..|s| - 1]
  {
  }

  lemma {:induction false} AppendDistinct<T>(s: seq<T>, x: T)
    requires Distinct(s) && x !in s
    ensures Distinct(s + [x])
  {
  }

  lemma {:induction false} WrittenDistinct<R>(backends: seq<Backend>, outcomes: seq<Outcome<R>>)
    requires |backends| == |outcomes| && Distinct(Names(backends))
    ensures Distinct(Written(backends, outcomes))
    ensures forall name :: name in Written(backends, outcomes) ==> name in Names(backends)
  {
    if backends != [] {
      var n := |backends| - 1;
      var front := Successes(backends[..n], outcomes[..n]);
      assert Names(backends)[..n] == Names(backends[..n]);
      LastDistinct(Names(backends));
      WrittenDistinct(backends[..n], outcomes[..n]);
      if outcomes[n].Response? {
        NamesAppend(front, (backends[n], outcomes[n].response));
        AppendDistinct(Written(backends[..n], outcomes[..n]), backends[n].name);
      }
      assert Names(backends) == Names(backends[..n]) + [backends[n].name];
    }
  }

  datatype Fill = Fill(source: string, targets: seq<string>)

  datatype WriteResult<R> = Replied(response: R, fill: Option<Fill>) | Raised(error: string)

  /** The fill of the backends that missed a write, if any did. */
  method ScheduleFill(clients: seq<Backend>, successes: seq<Backend>, responseBackend: Option<string>)
      returns (fill: Option<Fill>)
    requires successes != []
    ensures var missing := Missing(Names(clients), set b | b in successes :: b.name);
            && (fill.None? <==> missing == [])
            && (fill.Some? ==>
                  && fill.value.targets == missing && fill.value.source in Names(successes)
                  && fill.value.source == if responseBackend.Some? && responseBackend.value in Names(successes)
                                          then responseBackend.value else successes[0].name)
  {
    var targets := FillTargets(clients, successes);
    if targets == [] {
      return None;
    }
    var source := FillSource(successes, responseBackend);
    return Some(Fill(source, targets));
  }

  /** A quorum write, from the outcomes of its synchronous backends to what the client sees: a missed
      quorum raises the primary's error if the primary failed, else the first one; a met one answers with
      the response of the configured backend if that took the write, else of the primary, else of the
      first that did, and then the backends that took it and the targets of the fill are together every
      client exactly once, the fill reading from the configured one or the first that took it. */
  method ExecuteQuorum<R>(clients: seq<Backend>, backends: seq<Backend>, outcomes: seq<Outcome<R>>,
                          quorum: int, responseBackend: Option<string>, replicate: bool)
      returns (result: WriteResult<R>)
    requires |backends| == |outcomes| && 1 <= quorum <= |backends|
    requires Distinct(Names(clients)) && Distinct(Names(backends))
    requires forall name :: name in Names(backends) ==> name in Names(clients)
    ensures result.Replied? <==> |Successes(backends, outcomes)| >= quorum
    ensures result.Raised? ==>
              var failures := Failures(backends, outcomes);
              exists i: nat :: Selected(failures, None, i) && result.error == failures[i].1
    ensures result.Replied? ==>
              var successes := Successes(backends, outcomes);
              exists i: nat :: Selected(successes, responseBackend, i) && result.response == successes[i].1
    ensures result.Raised? ==> exists i :: 0 <= i < |backends| && !outcomes[i].Response? && result.error == ErrorOf(outcomes[i])
    ensures result.Replied? ==>
              exists i :: 0 <= i < |backends| && outcomes[i].Response? && result.response == outcomes[i].response
    ensures result.Replied? && !replicate ==> result.fill.None?
    ensures result.Replied? && replicate ==>
              && multiset(Written(backends, outcomes))
                 + multiset(if result.fill.Some? then result.fill.value.targets else []) == multiset(Names(clients))
              && (result.fill.Some? ==>
                    && result.fill.value.targets != []
                    && Written(backends, outcomes) != []
                    && result.fill.value.source ==
                       if responseBackend.Some? && responseBackend.value in Written(backends, outcomes)
                       then responseBackend.value else Written(backends, outcomes)[0])
  {
    var executed := ExecuteConcurrent(backends, outcomes);
    var successes, failures := executed.value.successes, executed.value.failures;
    QuorumAccounting(backends, outcomes, quorum);
    if !QuorumMet(|successes|, quorum) {
      var error := BestFailure(failures);
      ghost var j: nat :| Selected(failures, None, j) && error == failures[j].1;
      ghost var i := FailureOrigin(backends, outcomes, j);
      return Raised(error);
    }
    var response := SelectClientResponse(successes, responseBackend);
    ghost var j: nat :| Selected(successes, responseBackend, j) && response.value == successes[j].1;
    ghost var i := SuccessOrigin(backends, outcomes, j);
    if !replicate {
      return Replied(response.value, None);
    }
    var took := BackendsOf(successes);
    var fill := ScheduleFill(clients, took, responseBackend);
    WrittenDistinct(backends, outcomes);
    FillCovers(Names(clients), Names(took));
    SameNames(took);
    return Replied(response.value, fill);
  }

  lemma {:induction false} SameNames(backends: seq<Backend>)
    ensures (set b | b in backends :: b.name) == (set name | name in Names(backends))
  {
    forall name | name in Names(backends) ensures exists b :: b in backends && b.name == name {
      var i :| 0 <= i < |backends| && Names(backends)[i] == name;
      assert backends[i] in backends;
    }
    forall b | b in backends ensures b.name in Names(backends) {
      var i :| 0 <= i < |backends| && backends[i] == b;
      assert Names(backends)[i] == b.name;
    }
  }

  /** Every success is the response of some backend, every failure the error of one. */
  lemma {:induction false} SuccessOrigin<R>(backends: seq<Backend>, outcomes: seq<Outcome<R>>, j: nat) returns (i: nat)
    requires |backends| == |outcomes| && j < |Successes(backends, outcomes)|
    ensures i < |backends| && outcomes[i].Response?
    ensures Successes(backends, outcomes)[j] == (backends[i], outcomes[i].response)
  {
    var n := |backends| - 1;
    if j < |Successes(backends[..n], outcomes[..n])| {
      i := SuccessOrigin(backends[..n], outcomes[..n], j);
    } else {
      i := n;
    }
  }

  lemma {:induction false} FailureOrigin<R>(backends: seq<Backend>, outcomes: seq<Outcome<R>>, j: nat) returns (i: nat)
    requires |backends| == |outcomes| && j < |Failures(backends, outcomes)|
    ensures i < |backends| && !outcomes[i].Response?
    ensures Failures(backends, outcomes)[j] == (backends[i], ErrorOf(outcomes[i]))
  {
    var n := |backends| - 1;
    if j < |Failures(backends[..n], outcomes[..n])| {
      i := FailureOrigin(backends[..n], outcomes[..n], j);
    } else {
      i := n;
    }
  }
}
