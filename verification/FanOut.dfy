/**
 The buffer that replays one request body to several backends: kept in memory or spilled to a
 file, and read by any number of independent readers.
 */
module FanOut {
  import opened Common

  // ---------------------------------------------------------------- one reader

  /** Where a reader stands: an offset into shared bytes, or a file handle that is open at an offset
      or not open. */
  datatype Cursor = Memory(offset: nat) | Disk(handle: Option<nat>)

  /** How much to read: a number of bytes, or -1 for everything. */
  type Amount = n: int | n >= -1

  datatype Call = Read(n: Amount) | Next

  datatype Reply = Chunk(bytes: Bytes) | Stop

  function Offset(c: Cursor): nat {
    match c
    case Memory(offset) => offset
    case Disk(handle) => if handle.Some? then handle.value else 0
  }

  predicate Within(body: Bytes, c: Cursor) {
    Offset(c) <= |body|
  }

  function EndOf(body: Bytes, offset: nat, n: Amount): nat
    requires offset <= |body|
  {
    if n == -1 then |body| else Min(offset + n, |body|)
  }

  function Moved(c: Cursor, offset: nat): Cursor {
    if c.Memory? then Memory(offset) else Disk(Some(offset))
  }

  /** One call: a chunk, or the end of an iteration, which closes a file. */
  function Do(body: Bytes, size: nat, c: Cursor, call: Call): (r: (Cursor, Reply))
    requires Within(body, c)
    ensures Within(body, r.0) && r.0.Memory? == c.Memory?
  {
    var end := EndOf(body, Offset(c), if call.Read? then call.n else size);
    if call.Next? && end == Offset(c) then
      (if c.Memory? then c else Disk(None), Stop)
    else (Moved(c, end), Chunk(body[Offset(c)..end]))
  }

  /** A read hands out exactly the next `n` bytes, fewer only at the end of the body, and all that is
      left for -1; an iteration goes by `size` bytes and stops where nothing is left, which alone
      closes a file.  The reader stands behind what it handed out. */
  lemma {:induction false} ReplyIs(body: Bytes, size: nat, c: Cursor, call: Call)
    requires Within(body, c)
    ensures var (d, reply) := Do(body, size, c, call);
            var left := body[Offset(c)..];
            var n := if call.Read? then call.n else size;
            && (reply.Stop? <==> call.Next? && (left == [] || size == 0))
            && (reply.Chunk? ==> reply.bytes == if 0 <= n < |left| then left[..n] else left)
            && (c.Memory? ==> d == if reply.Chunk? then Memory(c.offset + |reply.bytes|) else c)
            && (c.Disk? ==> d == Disk(if reply.Chunk? then Some(Offset(c) + |reply.bytes|) else None))
  {
    var n := if call.Read? then call.n else size;
    if 0 <= n < |body| - Offset(c) {
      assert body[Offset(c)..][..n] == body[Offset(c)..Offset(c) + n];
    } else {
      assert body[Offset(c)..|body|] == body[Offset(c)..];
    }
  }

  class AsyncBytesReader {
    const data: Bytes
    const chunkSize: nat
    var offset: nat

    ghost predicate Valid()
      reads this
    {
      offset <= |data|
    }

    constructor (data: Bytes, chunkSize: nat)
      ensures Valid() && offset == 0 && this.data == data && this.chunkSize == chunkSize
    {
      this.data, this.chunkSize, offset := data, chunkSize, 0;
    }

    method ReadSome(n: Amount) returns (chunk: Bytes)
      requires Valid()
      modifies this
      ensures Valid()
      ensures (Memory(offset), Chunk(chunk)) == Do(data, chunkSize, Memory(old(offset)), Read(n))
    {
      if offset >= |data| {
        return [];
      }
      if n == -1 {
        chunk := data[offset..];
        assert chunk == data[offset..|data|];
        offset := |data|;
        return;
      }
      var end := Min(offset + n, |data|);
      chunk := data[offset..end];
      offset := end;
    }

    method Advance() returns (reply: Reply)
      requires Valid()
      modifies this
      ensures Valid()
      ensures (Memory(offset), reply) == Do(data, chunkSize, Memory(old(offset)), Next)
    {
      var chunk := ReadSome(chunkSize);
      reply := if chunk == [] then Stop else Chunk(chunk);
    }
  }

  class SpillFile {
    var contents: Bytes

    constructor ()
      ensures contents == []
    {
      contents := [];
    }

    method WriteLines(chunks: seq<Bytes>)
      modifies this
      ensures contents == old(contents) + Concat(chunks)
    {
      ghost var before := contents;
      for i := 0 to |chunks|
        invariant contents == before + Concat(chunks[..i])
      {
        contents := contents + chunks[i];
        assert chunks[..i + 1] == chunks[..i] + [chunks[i]];
        ConcatOne(chunks[..i], chunks[i]);
        Regroup(before, Concat(chunks[..i]), chunks[i]);
      }
      assert chunks[..|chunks|] == chunks;
    }
  }

  /** A reader with its own handle on the spilled file. */
  class ConcurrentFileStream {
    const file: SpillFile
    const chunkSize: nat
    var handle: Option<nat>

    ghost predicate Valid()
      reads this, file
    {
      handle.Some? ==> handle.value <= |file.contents|
    }

    constructor (file: SpillFile, chunkSize: nat)
      ensures Valid() && handle.None? && this.file == file && this.chunkSize == chunkSize
    {
      this.file, this.chunkSize, handle := file, chunkSize, None;
    }

    method ReadSome(n: Amount) returns (chunk: Bytes)
      requires Valid()
      modifies this
      ensures Valid()
      ensures (Disk(handle), Chunk(chunk)) == Do(file.contents, chunkSize, Disk(old(handle)), Read(n))
    {
      if handle.None? {
        handle := Some(0);
      }
      var rest := |file.contents| - handle.value;
      var k := if n < 0 then rest else Min(n, rest);
      chunk := file.contents[handle.value..handle.value + k];
      handle := Some(handle.value + k);
    }

    method Advance() returns (reply: Reply)
      requires Valid()
      modifies this
      ensures Valid()
      ensures (Disk(handle), reply) == Do(file.contents, chunkSize, Disk(old(handle)), Next)
    {
      var chunk := ReadSome(chunkSize);
      if chunk == [] {
        handle := None;
        return Stop;
      }
      return Chunk(chunk);
    }
  }

  // ---------------------------------------------------------------- the buffer

  datatype AnyReader = InMemory(bytes: AsyncBytesReader) | OnDisk(stream: ConcurrentFileStream)

  class MultiSyncBodyBuffer {
    const data: Option<Bytes>
    const file: Option<SpillFile>
    const chunkSize: nat
    var readers: seq<AnyReader>

    ghost predicate Holds(body: Bytes)
      reads if file.Some? then {file.value} else {}
    {
      if data.Some? then data.value == body else file.Some? && file.value.contents == body
    }

    constructor (data: Option<Bytes>, file: Option<SpillFile>, chunkSize: nat)
      ensures this.data == data && this.file == file && this.chunkSize == chunkSize && readers == []
    {
      this.data, this.file, this.chunkSize := data, file, chunkSize;
      readers := [];
    }

    /** A new reader at the start of the body. */
    method OpenReader(ghost body: Bytes) returns (reader: AnyReader)
      requires Holds(body)
      modifies this
      ensures readers == old(readers) + [reader]
      ensures reader.InMemory? == data.Some?
      ensures reader.InMemory? ==> fresh(reader.bytes) && reader.bytes.data == body
                                   && reader.bytes.offset == 0 && reader.bytes.chunkSize == chunkSize
      ensures reader.OnDisk? ==> fresh(reader.stream) && reader.stream.file.contents == body
                                 && reader.stream.handle.None? && reader.stream.chunkSize == chunkSize
    {
      if data.Some? {
        var r := new AsyncBytesReader(data.value, chunkSize);
        reader := InMemory(r);
      } else {
        var r := new ConcurrentFileStream(file.value, chunkSize);
        reader := OnDisk(r);
      }
      readers := readers + [reader];
    }
  }

  lemma {:induction false} ConcatPrefix(chunks: seq<Bytes>, i: nat)
    requires i <= |chunks|
    ensures |Concat(chunks[..i])| <= |Concat(chunks)|
  {
    ConcatSplit(chunks[..i], chunks[i..]);
    assert chunks == chunks[..i] + chunks[i..];
  }

  method Spill(prefix: seq<Bytes>, middle: Bytes, suffix: seq<Bytes>) returns (file: SpillFile)
    ensures fresh(file) && file.contents == Concat(prefix) + middle + Concat(suffix)
  {
    file := new SpillFile();
    file.WriteLines(prefix);
    file.contents := file.contents + middle;
    file.WriteLines(suffix);
    Regroup([], Concat(prefix), middle);
  }

  /** What a request may carry as its body. */
  datatype Body = NoBody | Whole(bytes: Bytes) | Chunked(chunks: seq<Bytes>) | Unreadable

  function BytesOf(body: Body): Bytes {
    match body
    case Whole(bytes) => bytes
    case Chunked(chunks) => Concat(chunks)
    case _ => []
  }

  /** Buffer a body: bytes stay in memory, chunks are collected, anything else is not buffered. */
  method FromBody(body: Body, maxMemory: int, chunkSize: nat) returns (buffer: Option<MultiSyncBodyBuffer>)
    ensures buffer.Some? <==> body.Whole? || body.Chunked?
    ensures buffer.Some? ==>
              && fresh(buffer.value) && buffer.value.Holds(BytesOf(body))
              && buffer.value.chunkSize == chunkSize && buffer.value.readers == []
              && (buffer.value.data.None? <==>
                    body.Chunked? && body.chunks != [] && |Concat(body.chunks)| > maxMemory)
  {
    match body {
      case Whole(bytes) =>
        var b := new MultiSyncBodyBuffer(Some(bytes), None, chunkSize);
        buffer := Some(b);
      case Chunked(chunks) =>
        var b := Collect(chunks, maxMemory, chunkSize);
        buffer := Some(b);
      case _ =>
        buffer := None;
    }
  }

  /** Buffer a body that arrives in chunks: it holds exactly the chunks' bytes, in memory when they
      fit and in a file when they do not. */
  method Collect(chunks: seq<Bytes>, maxMemory: int, chunkSize: nat) returns (buffer: MultiSyncBodyBuffer)
    ensures fresh(buffer) && buffer.Holds(Concat(chunks))
    ensures buffer.chunkSize == chunkSize && buffer.readers == []
    ensures buffer.data.None? <==> chunks != [] && |Concat(chunks)| > maxMemory
  {
    var kept: seq<Bytes>, total := [], 0;
    for i := 0 to |chunks|
      invariant kept == chunks[..i] && total == |Concat(kept)|
      invariant i > 0 ==> total <= maxMemory
    {
      assert chunks[..i + 1] == chunks[..i] + [chunks[i]];
      ConcatOne(chunks[..i], chunks[i]);
      ConcatPrefix(chunks, i + 1);
      total := total + |chunks[i]|;
      if total <= maxMemory {
        kept := kept + [chunks[i]];
      } else {
        var file := Spill(kept, chunks[i], chunks[i + 1..]);
        ConcatSplit(chunks[..i + 1], chunks[i + 1..]);
        assert chunks == chunks[..i + 1] + chunks[i + 1..];
        buffer := new MultiSyncBodyBuffer(None, Some(file), chunkSize);
        return;
      }
    }
    assert chunks[..|chunks|] == chunks;
    buffer := new MultiSyncBodyBuffer(Some(Concat(kept)), None, chunkSize);
  }

  // ---------------------------------------------------------------- runs of calls

  /** The replies to a run of calls on one reader. */
  function Play(body: Bytes, size: nat, c: Cursor, calls: seq<Call>): seq<Reply>
    requires Within(body, c)
    decreases |calls|
  {
    if calls == [] then []
    else
      var r := Do(body, size, c, calls[0]);
      [r.1] + Play(body, size, r.0, calls[1..])
  }

  /** The bytes the replies carry. */
  function Delivered(replies: seq<Reply>): Bytes {
    if replies == [] then []
    else (if replies[0].Chunk? then replies[0].bytes else []) + Delivered(replies[1..])
  }

  /** A call that asks for bytes. */
  predicate Asks(call: Call) {
    call.Next? || call.n != 0
  }

  /** Nobody asks for more bytes after being told that the iteration is over. */
  predicate StopsWhenTold(body: Bytes, size: nat, c: Cursor, calls: seq<Call>)
    requires Within(body, c)
    decreases |calls|
  {
    if calls == [] then true
    else
      var r := Do(body, size, c, calls[0]);
      if r.1.Stop? then forall call :: call in calls[1..] ==> !Asks(call)
      else StopsWhenTold(body, size, r.0, calls[1..])
  }

  lemma {:induction false} Slices(body: Bytes, a: nat, b: nat)
    requires a <= b <= |body|
    ensures body[a..b] + body[b..] == body[a..]
    ensures body[a..b] == body[a..][..b - a]
  {
  }

  lemma {:induction false} PrefixAfter(a: Bytes, b: Bytes, c: Bytes)
    requires b <= c
    ensures a + b <= a + c
  {
  }

  /** In memory: what is delivered is a prefix of what was left, and all of it once the end is told. */
  lemma {:induction false} MemoryDelivers(body: Bytes, size: nat, c: Cursor, calls: seq<Call>)
    requires size > 0 && c.Memory? && Within(body, c)
    ensures Delivered(Play(body, size, c, calls)) <= body[Offset(c)..]
    ensures Stop in Play(body, size, c, calls) ==> Delivered(Play(body, size, c, calls)) == body[Offset(c)..]
    decreases |calls|
  {
    if calls != [] {
      var r := Do(body, size, c, calls[0]);
      MemoryDelivers(body, size, r.0, calls[1..]);
      var rest := Play(body, size, r.0, calls[1..]);
      assert Play(body, size, c, calls)[1..] == rest;
      if r.1.Chunk? {
        Slices(body, Offset(c), Offset(r.0));
        PrefixAfter(r.1.bytes, Delivered(rest), body[Offset(r.0)..]);
      } else {
        Regroup([], Delivered(rest), []);
      }
    }
  }

  lemma {:induction false} IdleReplies(body: Bytes, size: nat, c1: Cursor, c2: Cursor, calls: seq<Call>)
    requires Within(body, c1) && Within(body, c2) && forall call :: call in calls ==> !Asks(call)
    ensures Play(body, size, c1, calls) == Play(body, size, c2, calls)
    decreases |calls|
  {
    if calls != [] {
      var r1, r2 := Do(body, size, c1, calls[0]), Do(body, size, c2, calls[0]);
      assert calls[0] in calls;
      assert body[Offset(c1)..Offset(c1)] == [] == body[Offset(c2)..Offset(c2)];
      IdleReplies(body, size, r1.0, r2.0, calls[1..]);
    }
  }

  /** After the end the forms part at the first call that asks: memory has nothing left, the file is
      opened again at its start. */
  lemma {:induction false} FormsPart(body: Bytes, size: nat, m: Cursor, d: Cursor, calls: seq<Call>)
    requires size > 0 && body != [] && m == Memory(|body|) && d.Disk? && Offset(d) == 0
    requires exists call :: call in calls && Asks(call)
    ensures Play(body, size, m, calls) != Play(body, size, d, calls)
    decreases |calls|
  {
    var rm, rd := Do(body, size, m, calls[0]), Do(body, size, d, calls[0]);
    SameTail(rm.1, rd.1, Play(body, size, rm.0, calls[1..]), Play(body, size, rd.0, calls[1..]));
    if !Asks(calls[0]) {
      FormsPart(body, size, rm.0, rd.0, calls[1..]);
    } else if rd.1.Chunk? {
      assert |rd.1.bytes| > 0;
    }
  }

  lemma {:induction false} EmptyBody(body: Bytes, size: nat, m: Cursor, d: Cursor, calls: seq<Call>)
    requires body == [] && m.Memory? && d.Disk? && Within(body, m) && Within(body, d)
    ensures Play(body, size, m, calls) == Play(body, size, d, calls)
    decreases |calls|
  {
    if calls != [] {
      EmptyBody(body, size, Do(body, size, m, calls[0]).0, Do(body, size, d, calls[0]).0, calls[1..]);
    }
  }

  lemma {:induction false} SameTail<T>(x: T, y: T, a: seq<T>, b: seq<T>)
    ensures [x] + a == [y] + b <==> x == y && a == b
  {
    assert ([x] + a)[1..] == a && ([y] + b)[1..] == b && ([x] + a)[0] == x && ([y] + b)[0] == y;
  }

  /** The two forms answer a run of calls alike exactly when the body is empty or nobody asks for
      more after the end. */
  lemma {:induction false} FormsAgree(body: Bytes, size: nat, m: Cursor, d: Cursor, calls: seq<Call>)
    requires size > 0 && m.Memory? && d.Disk? && Offset(m) == Offset(d) <= |body|
    ensures Play(body, size, m, calls) == Play(body, size, d, calls)
            <==> body == [] || StopsWhenTold(body, size, m, calls)
    decreases |calls|
  {
    if body == [] {
      EmptyBody(body, size, m, d, calls);
    } else if calls != [] {
      var rm, rd := Do(body, size, m, calls[0]), Do(body, size, d, calls[0]);
      SameTail(rm.1, rd.1, Play(body, size, rm.0, calls[1..]), Play(body, size, rd.0, calls[1..]));
      if rm.1.Chunk? {
        FormsAgree(body, size, rm.0, rd.0, calls[1..]);
      } else if forall call :: call in calls[1..] ==> !Asks(call) {
        IdleReplies(body, size, rm.0, rd.0, calls[1..]);
      } else {
        FormsPart(body, size, rm.0, rd.0, calls[1..]);
      }
    }
  }

  /** Iterating reaches the end. */
  lemma {:induction false} IterationEnds(body: Bytes, size: nat, c: Cursor, calls: seq<Call>)
    requires size > 0 && Within(body, c) && |calls| > |body| - Offset(c)
    requires forall k :: 0 <= k < |calls| ==> calls[k] == Next
    ensures Stop in Play(body, size, c, calls)
    decreases |calls|
  {
    var r := Do(body, size, c, calls[0]);
    if r.1.Chunk? {
      IterationEnds(body, size, r.0, calls[1..]);
    }
  }

  // ---------------------------------------------------------------- many readers

  datatype Event = Open | On(reader: nat, call: Call)

  datatype Heard = Heard(reader: nat, reply: Reply)

  predicate FleetOk(body: Bytes, fleet: seq<Cursor>) {
    forall i :: 0 <= i < |fleet| ==> Within(body, fleet[i])
  }

  /** What all readers of one buffer are told over an interleaved run; `start` is where a new one
      stands. */
  function PlayAll(body: Bytes, size: nat, start: Cursor, fleet: seq<Cursor>, events: seq<Event>): seq<Heard>
    requires Within(body, start) && FleetOk(body, fleet)
    decreases |events|
  {
    if events == [] then []
    else match events[0]
      case Open => PlayAll(body, size, start, fleet + [start], events[1..])
      case On(i, call) =>
        if i >= |fleet| then PlayAll(body, size, start, fleet, events[1..])
        else
          var r := Do(body, size, fleet[i], call);
          [Heard(i, r.1)] + PlayAll(body, size, start, fleet[i := r.0], events[1..])
  }

  function HeardBy(heard: seq<Heard>, i: nat): seq<Reply> {
    if heard == [] then []
    else (if heard[0].reader == i then [heard[0].reply] else []) + HeardBy(heard[1..], i)
  }

  /** The calls on reader `i`, when `count` readers are open already. */
  function CallsOn(events: seq<Event>, i: nat, count: nat): seq<Call> {
    if events == [] then []
    else match events[0]
      case Open => CallsOn(events[1..], i, count + 1)
      case On(j, call) => (if j == i && j < count then [call] else []) + CallsOn(events[1..], i, count)
  }

  function CursorOf(fleet: seq<Cursor>, start: Cursor, i: nat): Cursor {
    if i < |fleet| then fleet[i] else start
  }

  lemma {:induction false} HeardByFirst(h: Heard, rest: seq<Heard>, i: nat)
    ensures HeardBy([h] + rest, i) == if h.reader == i then [h.reply] + HeardBy(rest, i) else HeardBy(rest, i)
  {
    assert ([h] + rest)[1..] == rest;
    Regroup([], HeardBy(rest, i), []);
  }

  lemma {:induction false} PlayFirst(body: Bytes, size: nat, c: Cursor, call: Call, rest: seq<Call>)
    requires Within(body, c)
    ensures Play(body, size, c, [call] + rest)
            == [Do(body, size, c, call).1] + Play(body, size, Do(body, size, c, call).0, rest)
  {
    assert ([call] + rest)[1..] == rest;
  }

  /** A one-byte body iterated past its end: the spilled form starts over. */
  lemma {:induction false} RestartExample()
    ensures Play([7], 1, Memory(0), [Next, Next, Next]) == [Chunk([7]), Stop, Stop]
    ensures Play([7], 1, Disk(None), [Next, Next, Next]) == [Chunk([7]), Stop, Chunk([7])]
  {
    var body: Bytes := [7];
    assert body[0..1] == body;
    assert Do(body, 1, Memory(0), Next) == (Memory(1), Chunk(body));
    ThreeCalls([7], 1, Memory(0));
    ThreeCalls([7], 1, Disk(None));
  }

  lemma {:induction false} ThreeCalls(body: Bytes, size: nat, c: Cursor)
    requires Within(body, c)
    ensures var r1 := Do(body, size, c, Next);
            var r2 := Do(body, size, r1.0, Next);
            Play(body, size, c, [Next, Next, Next]) == [r1.1, r2.1, Do(body, size, r2.0, Next).1]
  {
    var r1 := Do(body, size, c, Next);
    var r2 := Do(body, size, r1.0, Next);
    assert [Next, Next, Next] == [Next] + [Next, Next] && [Next, Next] == [Next] + [Next] && [Next] == [Next] + [];
    PlayFirst(body, size, c, Next, [Next, Next]);
    PlayFirst(body, size, r1.0, Next, [Next]);
    PlayFirst(body, size, r2.0, Next, []);
  }

  /** However the readers are interleaved, each is told what it would be told alone. */
  lemma {:induction false} ReadersAreIndependent(body: Bytes, size: nat, start: Cursor, fleet: seq<Cursor>,
                                                 events: seq<Event>, i: nat)
    requires Within(body, start) && FleetOk(body, fleet)
    ensures HeardBy(PlayAll(body, size, start, fleet, events), i)
            == Play(body, size, CursorOf(fleet, start, i), CallsOn(events, i, |fleet|))
    decreases |events|
  {
    if events != [] {
      match events[0]
      case Open =>
        ReadersAreIndependent(body, size, start, fleet + [start], events[1..], i);
      case On(j, call) =>
        var rest := CallsOn(events[1..], i, |fleet|);
        assert [] + rest == rest;
        if j >= |fleet| {
          ReadersAreIndependent(body, size, start, fleet, events[1..], i);
        } else {
          var r := Do(body, size, fleet[j], call);
          var after := fleet[j := r.0];
          ReadersAreIndependent(body, size, start, after, events[1..], i);
          HeardByFirst(Heard(j, r.1), PlayAll(body, size, start, after, events[1..]), i);
          PlayFirst(body, size, fleet[j], call, rest);
        }
    }
  }

  /** Every reader of a buffer, in memory or spilled, receives a prefix of the body, and the whole
      body once it is told the end, if it stops asking then. */
  lemma {:induction false} FanOutDelivers(body: Bytes, size: nat, spilled: bool, events: seq<Event>, i: nat)
    requires size > 0
    requires StopsWhenTold(body, size, Memory(0), CallsOn(events, i, 0))
    ensures var start := if spilled then Disk(None) else Memory(0);
            var told := HeardBy(PlayAll(body, size, start, [], events), i);
            Delivered(told) <= body && (Stop in told ==> Delivered(told) == body)
  {
    var start := if spilled then Disk(None) else Memory(0);
    ReadersAreIndependent(body, size, start, [], events, i);
    MemoryDelivers(body, size, Memory(0), CallsOn(events, i, 0));
    FormsAgree(body, size, Memory(0), Disk(None), CallsOn(events, i, 0));
    assert body[0..] == body;
  }
}
