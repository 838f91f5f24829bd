/**
 The replayable body of a write with fallback: a reader that spools what it pulls from the
 request stream, and the loop that offers the same body to one backend after another.
 */
module Spool {
  import opened Common

  /** State of the reader over a stream that arrives as `chunks`: the spool file and its position,
      whether reads are served from it, whether the stream has ended, and how many chunks have been
      pulled. */
  datatype Tape = Tape(file: Bytes, pos: nat, replaying: bool, eof: bool, pulled: nat)

  const BLANK := Tape([], 0, false, false, 0)

  /** A file of given contents after writing `data` at `pos`. */
  function WriteAt(contents: Bytes, pos: nat, data: Bytes): Bytes
    requires pos <= |contents|
  {
    contents[..pos] + data + if pos + |data| < |contents| then contents[pos + |data|..] else []
  }

  /** Pull one chunk from the stream into the file. */
  function Pull(chunks: seq<Bytes>, t: Tape): (r: (Tape, Bytes))
    requires t.pos <= |t.file| && t.pulled <= |chunks|
    ensures r.0.pos <= |r.0.file| && r.0.pulled <= |chunks|
  {
    if t.pulled == |chunks| then (t.(eof := true), [])
    else
      var chunk := chunks[t.pulled];
      (t.(file := WriteAt(t.file, t.pos, chunk), pos := t.pos + |chunk|, pulled := t.pulled + 1), chunk)
  }

  function ReadTape(chunks: seq<Bytes>, t: Tape, n: int): (r: (Tape, Bytes))
    requires n >= -1 && t.pos <= |t.file| && t.pulled <= |chunks|
    ensures r.0.pos <= |r.0.file| && r.0.pulled <= |chunks|
  {
    var k := if n < 0 then |t.file| - t.pos else Min(n, |t.file| - t.pos);
    if t.replaying && k > 0 then (t.(pos := t.pos + k), t.file[t.pos..t.pos + k])
    else if t.eof then (t, [])
    else Pull(chunks, t.(replaying := false))
  }

  function Rewind(t: Tape): Tape {
    t.(replaying := true, pos := 0)
  }

  /** Every chunk the stream yields has bytes, as both request readers guarantee. */
  predicate Stream(chunks: seq<Bytes>) {
    forall i :: 0 <= i < |chunks| ==> chunks[i] != []
  }

  /** The spool equals the bytes pulled, each chunk once, and live reading happens at its end. */
  predicate Good(chunks: seq<Bytes>, t: Tape) {
    && t.pulled <= |chunks|
    && t.file == Concat(chunks[..t.pulled])
    && t.pos <= |t.file|
    && (!t.replaying ==> t.pos == |t.file|)
    && (t.eof ==> t.pulled == |chunks|)
  }

  /** The bytes a consumer that reads to the end from here receives. */
  function Ahead(chunks: seq<Bytes>, t: Tape): Bytes
    requires t.pos <= |t.file| && t.pulled <= |chunks|
  {
    t.file[t.pos..] + Concat(chunks[t.pulled..])
  }

  /** Zero-length reads of a replay that has not caught up are what the reader cannot take. */
  predicate SafeRead(t: Tape, n: int) {
    n != 0 || !t.replaying || t.eof || t.pos == |t.file|
  }

  lemma {:induction false} PullGood(chunks: seq<Bytes>, t: Tape)
    requires Stream(chunks) && Good(chunks, t) && t.pos == |t.file|
    ensures var (u, chunk) := Pull(chunks, t.(replaying := false));
            && Good(chunks, u)
            && Ahead(chunks, t) == chunk + Ahead(chunks, u)
            && (chunk == [] <==> Ahead(chunks, t) == [])
  {
    if t.pulled < |chunks| {
      var chunk := chunks[t.pulled];
      assert chunks[..t.pulled + 1] == chunks[..t.pulled] + [chunk];
      ConcatOne(chunks[..t.pulled], chunk);
      var rest := chunks[t.pulled..];
      assert rest[0] == chunk && rest[1..] == chunks[t.pulled + 1..];
    }
  }

  /** Reading `k` bytes of a replay. */
  lemma {:induction false} ReplayGood(chunks: seq<Bytes>, t: Tape, k: nat)
    requires Good(chunks, t) && t.replaying && 0 < k <= |t.file| - t.pos
    ensures var u, chunk := t.(pos := t.pos + k), t.file[t.pos..t.pos + k];
            && Good(chunks, u) && chunk != []
            && Ahead(chunks, t) == chunk + Ahead(chunks, u)
  {
    var chunk, left := t.file[t.pos..t.pos + k], t.file[t.pos + k..];
    assert t.file[t.pos..] == chunk + left;
    Regroup(chunk, left, Concat(chunks[t.pulled..]));
  }

  /** At the end of the stream and of the spool nothing is ahead. */
  lemma {:induction false} EndGood(chunks: seq<Bytes>, t: Tape)
    requires Good(chunks, t) && t.eof && t.pos == |t.file|
    ensures Ahead(chunks, t) == []
  {
    assert chunks[t.pulled..] == [];
  }

  /** A safe read keeps the spool good and hands out the next bytes, none only at the end. */
  lemma {:induction false} ReadGood(chunks: seq<Bytes>, t: Tape, n: int)
    requires Stream(chunks) && Good(chunks, t) && n >= -1 && SafeRead(t, n)
    ensures var (u, chunk) := ReadTape(chunks, t, n);
            && Good(chunks, u)
            && Ahead(chunks, t) == chunk + Ahead(chunks, u)
            && (n != 0 ==> (chunk == [] <==> Ahead(chunks, t) == []))
  {
    var k := if n < 0 then |t.file| - t.pos else Min(n, |t.file| - t.pos);
    if t.replaying && k > 0 {
      ReplayGood(chunks, t, k);
    } else if !t.eof {
      PullGood(chunks, t);
    } else {
      NothingRead(Ahead(chunks, t));
      if n != 0 {
        EndGood(chunks, t);
      }
    }
  }

  /** A replaying read of `n` bytes hands out exactly the next `n` bytes of the spool, fewer only where
      it ends, and leaves the stream alone; a negative size asks for the rest of the spool. */
  lemma {:induction false} ReplaySize(chunks: seq<Bytes>, t: Tape, n: int)
    requires Good(chunks, t) && n >= -1 && n != 0 && t.replaying && t.pos < |t.file|
    ensures var (u, chunk) := ReadTape(chunks, t, n);
            var left := |t.file| - t.pos;
            && |chunk| == (if 0 < n < left then n else left)
            && chunk == Ahead(chunks, t)[..|chunk|]
            && u == t.(pos := t.pos + |chunk|)
            && (n < 0 || n >= left ==> chunk == t.file[t.pos..])
  {
    var left := |t.file| - t.pos;
    var k := if 0 < n < left then n else left;
    assert Ahead(chunks, t)[..k] == t.file[t.pos..t.pos + k];
    assert t.file[t.pos..t.pos + left] == t.file[t.pos..];
  }

  /** A live read, or a replaying one that has caught up, hands out exactly the next chunk of the
      stream, whatever its size, and spools it; at the end of the stream it hands out nothing. */
  lemma {:induction false} LiveSize(chunks: seq<Bytes>, t: Tape, n: int)
    requires Good(chunks, t) && n >= -1 && t.pos == |t.file|
    ensures var (u, chunk) := ReadTape(chunks, t, n);
            if t.pulled < |chunks| then
              && chunk == chunks[t.pulled]
              && u == Tape(t.file + chunk, |t.file + chunk|, false, false, t.pulled + 1)
            else chunk == [] && u == if t.eof then t else t.(replaying := false, eof := true)
  {
    if t.pulled < |chunks| {
      assert t.file[..t.pos] == t.file;
      Regroup(t.file, chunks[t.pulled], []);
    }
  }

  lemma {:induction false} NothingRead(ahead: Bytes)
    ensures ahead == [] + ahead
  {
  }

  /** The reader keeps its spool good exactly on safe reads. */
  lemma {:induction false} ReadGoodIff(chunks: seq<Bytes>, t: Tape, n: int)
    requires Stream(chunks) && Good(chunks, t) && n >= -1
    ensures Good(chunks, ReadTape(chunks, t, n).0) <==> SafeRead(t, n)
  {
    if SafeRead(t, n) {
      ReadGood(chunks, t, n);
    } else {
      var u := ReadTape(chunks, t, n).0;
      if t.pulled < |chunks| {
        var chunk := chunks[t.pulled];
        assert chunks[..t.pulled + 1] == chunks[..t.pulled] + [chunk];
        ConcatOne(chunks[..t.pulled], chunk);
        assert |Concat(chunks[..u.pulled])| == |t.file| + |chunk|;
      }
    }
  }

  /** What is lost otherwise: a zero-length read in the middle of the spool writes the next chunk over it. */
  lemma {:induction false} ZeroReadOverwrites(chunks: seq<Bytes>, t: Tape, i: nat)
    requires Good(chunks, t) && t.replaying && !t.eof && t.pulled < |chunks| && t.pos < |t.file|
    ensures var (u, chunk) := ReadTape(chunks, t, 0);
            && chunk == chunks[t.pulled] && u.pulled == t.pulled + 1 && u.pos == t.pos + |chunk|
            && |u.file| == Max(|t.file|, u.pos)
            && (i < |u.file| ==> u.file[i] == if t.pos <= i < u.pos then chunk[i - t.pos] else t.file[i])
  {
  }

  /** Two chunks, the first read and rewound: a zero-length read then writes the second over it. */
  lemma {:induction false} ZeroReadExample()
    ensures var chunks: seq<Bytes> := [[1], [2]];
            var rewound := Rewind(ReadTape(chunks, BLANK, -1).0);
            var after := ReadTape(chunks, rewound, 0).0;
            && Stream(chunks) && Good(chunks, rewound)
            && after.file == [2] && Concat(chunks[..after.pulled]) == [1, 2]
  {
    var chunks: seq<Bytes> := [[1], [2]];
    BlankGood(chunks);
    ReadGood(chunks, BLANK, -1);
    RewindGood(chunks, ReadTape(chunks, BLANK, -1).0);
    assert chunks[..2] == [[1]] + [[2]];
    ConcatOne([[1]], [2]);
    ConcatOne([], [1]);
    assert [] + [[1]] == [[1]];
  }

  lemma {:induction false} RewindGood(chunks: seq<Bytes>, t: Tape)
    requires Good(chunks, t)
    ensures Good(chunks, Rewind(t))
    ensures Ahead(chunks, Rewind(t)) == Concat(chunks)
  {
    ConcatSplit(chunks[..t.pulled], chunks[t.pulled..]);
    assert chunks == chunks[..t.pulled] + chunks[t.pulled..];
    assert t.file[0..] == t.file;
  }

  lemma {:induction false} BlankGood(chunks: seq<Bytes>)
    ensures Good(chunks, BLANK) && Ahead(chunks, BLANK) == Concat(chunks)
  {
    assert chunks[0..] == chunks;
  }

  // ---------------------------------------------------------------- the reader

  class BufferedStreamReader {
    const chunks: seq<Bytes>
    var tmpFile: Bytes
    var position: nat
    var readFromTmp: bool
    var eofReached: bool
    var pulled: nat

    ghost function Model(): Tape
      reads this
    {
      Tape(tmpFile, position, readFromTmp, eofReached, pulled)
    }

    ghost predicate Valid()
      reads this
    {
      Stream(chunks) && position <= |tmpFile| && pulled <= |chunks|
    }

    constructor (chunks: seq<Bytes>)
      requires Stream(chunks)
      ensures this.chunks == chunks && Valid() && Model() == BLANK
    {
      this.chunks := chunks;
      tmpFile, position, readFromTmp, eofReached, pulled := [], 0, false, false, 0;
    }

    method SeekToStart()
      requires Valid()
      modifies this`readFromTmp, this`position
      ensures Valid() && Model() == Rewind(old(Model()))
    {
      if !readFromTmp {
        readFromTmp := true;
      }
      position := 0;
    }

    method Read(n: int) returns (chunk: Bytes)
      requires Valid() && n >= -1
      modifies this
      ensures Valid() && (Model(), chunk) == ReadTape(chunks, old(Model()), n)
      ensures old(readFromTmp) && n > 0 && old(position) < |old(tmpFile)| ==>
                && chunk == old(tmpFile)[old(position)..][..Min(n, |old(tmpFile)| - old(position))]
                && pulled == old(pulled)
    {
      if readFromTmp {
        var k := if n < 0 then |tmpFile| - position else Min(n, |tmpFile| - position);
        chunk := tmpFile[position..position + k];
        position := position + k;
        if chunk != [] {
          return;
        }
        if !eofReached {
          readFromTmp := false;
        } else {
          return [];
        }
      }
      if eofReached {
        return [];
      }
      if pulled == |chunks| {
        eofReached := true;
        chunk := [];
      } else {
        chunk := chunks[pulled];
        pulled := pulled + 1;
        tmpFile := WriteAt(tmpFile, position, chunk);
        position := position + |chunk|;
      }
    }
  }

  // ---------------------------------------------------------------- write with fallback

  /** What a backend client does to the body it is given. */
  datatype Use = Get(n: int) | SeekZero

  datatype Verdict = Accepted | Rejected(permanent: bool)

  /** One backend's handling of the request: some reads and rewinds, then either an error or,
      having read the body to its end, success. */
  datatype Attempt = Attempt(uses: seq<Use>, verdict: Verdict)

  predicate Sound(a: Attempt) {
    forall i :: 0 <= i < |a.uses| && a.uses[i].Get? ==> a.uses[i].n >= -1 && a.uses[i].n != 0
  }

  /** Let one backend consume the body; `received` is what it holds since its last rewind. */
  method Consume(body: BufferedStreamReader, attempt: Attempt) returns (received: Bytes)
    requires body.Valid() && Sound(attempt)
    requires Good(body.chunks, body.Model())
    requires Ahead(body.chunks, body.Model()) == Concat(body.chunks)
    modifies body
    ensures body.Valid() && Good(body.chunks, body.Model())
    ensures received + Ahead(body.chunks, body.Model()) == Concat(body.chunks)
    ensures attempt.verdict.Accepted? ==> received == Concat(body.chunks)
  {
    received := [];
    ghost var whole := Concat(body.chunks);
    for i := 0 to |attempt.uses|
      invariant body.Valid() && Good(body.chunks, body.Model())
      invariant received + Ahead(body.chunks, body.Model()) == whole
    {
      match attempt.uses[i] {
        case SeekZero =>
          RewindGood(body.chunks, body.Model());
          body.SeekToStart();
          received := [];
        case Get(n) =>
          received := Grow(body, n, received);
      }
    }
    if attempt.verdict.Accepted? {
      var done := false;
      while !done
        invariant body.Valid() && Good(body.chunks, body.Model())
        invariant received + Ahead(body.chunks, body.Model()) == whole
        invariant done ==> Ahead(body.chunks, body.Model()) == []
        decreases |Ahead(body.chunks, body.Model())|, !done
      {
        var more := Grow(body, -1, received);
        done := |more| == |received|;
        received := more;
      }
    }
  }

  /** Read once and append. */
  method Grow(body: BufferedStreamReader, n: int, received: Bytes) returns (more: Bytes)
    requires body.Valid() && n >= -1 && n != 0 && Good(body.chunks, body.Model())
    modifies body
    ensures body.Valid() && Good(body.chunks, body.Model())
    ensures more + Ahead(body.chunks, body.Model()) == received + old(Ahead(body.chunks, body.Model()))
    ensures received <= more
    ensures |more| == |received| <==> old(Ahead(body.chunks, body.Model())) == []
  {
    ReadGood(body.chunks, body.Model(), n);
    var chunk := body.Read(n);
    more := received + chunk;
    Regroup(received, chunk, Ahead(body.chunks, body.Model()));
  }

  datatype WriteResult =
    | Written(backend: nat, body: Bytes)
    | RaisedAtOnce(backend: nat)
    | RaisedLast(backend: nat)
    | NoBackends

  /** All attempts before `i` failed with a retryable error. */
  predicate Retryable(attempts: seq<Attempt>, i: nat)
    requires i <= |attempts|
  {
    forall j :: 0 <= j < i ==> attempts[j].verdict == Rejected(false)
  }

  /** Offer the body to the candidates in order.  The first backend that does not fail with a
      retryable error decides; a backend that accepts has received exactly the request body. */
  method WriteWithFallback(chunks: seq<Bytes>, attempts: seq<Attempt>) returns (result: WriteResult)
    requires Stream(chunks)
    requires forall i :: 0 <= i < |attempts| ==> Sound(attempts[i])
    ensures match result
      case Written(i, body) =>
        && i < |attempts| && Retryable(attempts, i) && attempts[i].verdict.Accepted?
        && body == Concat(chunks)
      case RaisedAtOnce(i) =>
        i < |attempts| && Retryable(attempts, i) && attempts[i].verdict == Rejected(true)
      case RaisedLast(i) => i + 1 == |attempts| && Retryable(attempts, |attempts|)
      case NoBackends => attempts == []
  {
    var body := new BufferedStreamReader(chunks);
    BlankGood(chunks);
    var lastError := -1;
    for i := 0 to |attempts|
      invariant body.Valid() && body.chunks == chunks && Good(chunks, body.Model())
      invariant i == 0 ==> Ahead(chunks, body.Model()) == Concat(chunks)
      invariant Retryable(attempts, i)
      invariant lastError == i - 1
    {
      if i > 0 {
        RewindGood(chunks, body.Model());
        body.SeekToStart();
      }
      var received := Consume(body, attempts[i]);
      match attempts[i].verdict {
        case Accepted =>
          return Written(i, received);
        case Rejected(permanent) =>
          lastError := i;
          if permanent {
            return RaisedAtOnce(i);
          }
      }
    }
    result := if lastError >= 0 then RaisedLast(lastError) else NoBackends;
  }
}
